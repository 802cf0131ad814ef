/** Keyboard navigation of a tree (`TreeNav`, crates/rustnative-components/src/behaviour.rs). */
module TreeNavs {
  import opened Sequences
  import opened Wrappers

  datatype TreeItem = TreeItem(id: string, parent: Option<string>, caption: string)

  /** An item shown, by its place in the items, with its depth. */
  datatype Entry = Entry(index: nat, depth: nat)

  ghost predicate UniqueIds(items: seq<TreeItem>) {
    forall i, j :: 0 <= i < j < |items| ==> items[i].id != items[j].id
  }

  /** Where the item `id` is. */
  function IndexOf(items: seq<TreeItem>, id: string): (at: nat)
    requires exists i :: 0 <= i < |items| && items[i].id == id
    ensures at < |items| && items[at].id == id
  {
    if items[0].id == id then 0 else 1 + IndexOf(items[1..], id)
  }

  /** Unique ids, and parents before their children. */
  ghost predicate WellFormed(items: seq<TreeItem>) {
    && UniqueIds(items)
    && forall i :: 0 <= i < |items| ==> ParentEarlier(items, i)
  }

  ghost predicate ParentEarlier(items: seq<TreeItem>, i: nat)
    requires i < |items|
  {
    items[i].parent.Some? ==> exists j :: 0 <= j < i && items[j].id == items[i].parent.value
  }

  /** Where item `i`'s parent is. */
  function ParentOf(items: seq<TreeItem>, i: nat): (at: nat)
    requires WellFormed(items) && i < |items| && items[i].parent.Some?
    ensures at < i && items[at].id == items[i].parent.value
  {
    assert ParentEarlier(items, i);
    IndexOf(items, items[i].parent.value)
  }

  // ---------------------------------------------------------------------
  // What is shown
  // ---------------------------------------------------------------------

  /** The items from the one under `parent` down to item `i`, when each but the last is
      expanded; empty when `i` is not under `parent`, or hidden. */
  function PathFrom(items: seq<TreeItem>, expanded: set<string>, parent: Option<string>, i: nat): seq<nat>
    requires WellFormed(items) && i < |items|
  {
    if items[i].parent == parent then [i]
    else if items[i].parent.Some? && items[i].parent.value in expanded then
      var above := PathFrom(items, expanded, parent, ParentOf(items, i));
      if above == [] then [] else above + [i]
    else []
  }

  /** Whether every ancestor of item `i` is expanded, and how many it has. */
  predicate Shown(items: seq<TreeItem>, expanded: set<string>, i: nat)
    requires WellFormed(items) && i < |items|
  {
    items[i].parent.Some? ==>
      items[i].parent.value in expanded && Shown(items, expanded, ParentOf(items, i))
  }

  function Ancestors(items: seq<TreeItem>, i: nat): seq<nat>
    requires WellFormed(items) && i < |items|
  {
    if items[i].parent.None? then [] else Ancestors(items, ParentOf(items, i)) + [ParentOf(items, i)]
  }

  /** The order of a depth-first listing: an item comes before what is under it, and before
      everything under a later sibling. */
  ghost predicate Before(a: seq<nat>, b: seq<nat>) {
    b != [] && (a == [] || a[0] < b[0] || (a[0] == b[0] && Before(a[1..], b[1..])))
  }

  /** How far below `parent` the walk can still go. */
  function Remaining(items: seq<TreeItem>, parent: Option<string>): nat
    requires WellFormed(items)
    requires parent.Some? ==> exists i :: 0 <= i < |items| && items[i].id == parent.value
  {
    if parent.None? then |items| else |items| - 1 - IndexOf(items, parent.value)
  }

  /** The walk over the children of `parent` from item `from` on, each followed by what is
      under it. */
  function Walk(items: seq<TreeItem>, expanded: set<string>, parent: Option<string>, depth: nat, from: nat): seq<Entry>
    requires WellFormed(items) && from <= |items|
    requires parent.Some? ==> exists i :: 0 <= i < |items| && items[i].id == parent.value
    decreases Remaining(items, parent), |items| - from
  {
    if from == |items| then []
    else if items[from].parent != parent then Walk(items, expanded, parent, depth, from + 1)
    else
      [Entry(from, depth)]
      + (if items[from].id in expanded then
           ChildIsLower(items, from);
           Walk(items, expanded, Some(items[from].id), depth + 1, 0)
         else [])
      + Walk(items, expanded, parent, depth, from + 1)
  }

  lemma ChildIsLower(items: seq<TreeItem>, i: nat)
    requires WellFormed(items) && i < |items|
    ensures items[i].parent.Some? ==> exists j :: 0 <= j < |items| && items[j].id == items[i].parent.value
    ensures Remaining(items, Some(items[i].id)) < Remaining(items, items[i].parent)
  {
    assert IndexOf(items, items[i].id) == i;
    if items[i].parent.Some? {
      assert ParentOf(items, i) < i;
    }
  }

  function Visible(items: seq<TreeItem>, expanded: set<string>): seq<Entry>
    requires WellFormed(items)
  {
    Walk(items, expanded, None, 0, 0)
  }

  // ---------------------------------------------------------------------
  // Paths
  // ---------------------------------------------------------------------

  lemma {:induction false} PathEnds(items: seq<TreeItem>, expanded: set<string>, parent: Option<string>, i: nat)
    requires WellFormed(items) && i < |items|
    ensures var path := PathFrom(items, expanded, parent, i);
      path != [] ==> path[0] < |items| && items[path[0]].parent == parent && path[|path| - 1] == i
                     && (parent.Some? ==> exists j :: 0 <= j < i && items[j].id == parent.value)
  {
    assert ParentEarlier(items, i);
    if items[i].parent != parent && items[i].parent.Some? && items[i].parent.value in expanded {
      PathEnds(items, expanded, parent, ParentOf(items, i));
    }
  }

  /** What is under an expanded child of `parent` is under `parent` through it. */
  lemma {:induction false} PathThrough(items: seq<TreeItem>, expanded: set<string>, f: nat, i: nat)
    requires WellFormed(items) && f < |items| && i < |items| && items[f].id in expanded
    requires PathFrom(items, expanded, Some(items[f].id), i) != []
    ensures PathFrom(items, expanded, items[f].parent, i) == [f] + PathFrom(items, expanded, Some(items[f].id), i)
  {
    var at := ParentOf(items, i);
    PathEnds(items, expanded, Some(items[f].id), i);
    if items[i].parent == Some(items[f].id) {
      assert at == f;
      assert ParentEarlier(items, f) && UniqueIds(items);
      assert items[i].parent != items[f].parent;
      assert [f] + [i] == [f, i];
    } else {
      PathThrough(items, expanded, f, at);
      PathEnds(items, expanded, Some(items[f].id), at);
      assert ParentEarlier(items, f);
      assert items[i].parent != items[f].parent;
      assert [f] + PathFrom(items, expanded, Some(items[f].id), i)
          == [f] + PathFrom(items, expanded, Some(items[f].id), at) + [i];
    }
  }

  /** What is under `parent` through its child `f`, and is not `f`, is under `f`, which is expanded. */
  lemma {:induction false} PathBelow(items: seq<TreeItem>, expanded: set<string>, parent: Option<string>,
                                           f: nat, i: nat)
    requires WellFormed(items) && f < |items| && i < |items| && i != f
    requires PathFrom(items, expanded, parent, i) != [] && PathFrom(items, expanded, parent, i)[0] == f
    ensures items[f].id in expanded && PathFrom(items, expanded, Some(items[f].id), i) != []
  {
    PathEnds(items, expanded, parent, i);
    var at := ParentOf(items, i);
    if at != f {
      PathBelow(items, expanded, parent, f, at);
    }
  }

  /** `out` lists exactly what is under `parent` from its child `from` on and shown there, each
      at its depth, in depth-first order. */
  ghost predicate Lists(items: seq<TreeItem>, expanded: set<string>, parent: Option<string>, depth: nat, from: nat,
                        out: seq<Entry>)
    requires WellFormed(items)
  {
    && (forall e :: e in out <==> Listed(items, expanded, parent, depth, from, e))
    && (forall k, l :: 0 <= k < l < |out| ==> InOrder(items, expanded, parent, out[k], out[l]))
  }

  /** The first entry's path comes before the second's. */
  ghost predicate InOrder(items: seq<TreeItem>, expanded: set<string>, parent: Option<string>, a: Entry, b: Entry)
    requires WellFormed(items)
  {
    && a.index < |items| && b.index < |items|
    && Before(PathFrom(items, expanded, parent, a.index), PathFrom(items, expanded, parent, b.index))
  }

  ghost predicate Listed(items: seq<TreeItem>, expanded: set<string>, parent: Option<string>, depth: nat, from: nat,
                         e: Entry)
    requires WellFormed(items)
  {
    e.index < |items|
    && var path := PathFrom(items, expanded, parent, e.index);
       path != [] && path[0] >= from && e.depth == depth + |path| - 1
  }

  /** Under a shown child come exactly the items whose path goes through it. */
  lemma BelowListed(items: seq<TreeItem>, expanded: set<string>, f: nat, depth: nat, e: Entry)
    requires WellFormed(items) && f < |items|
    ensures (items[f].id in expanded && Listed(items, expanded, Some(items[f].id), depth + 1, 0, e))
       <==> (e != Entry(f, depth) && Listed(items, expanded, items[f].parent, depth, f, e)
             && PathFrom(items, expanded, items[f].parent, e.index)[0] == f)
  {
    if e.index < |items| {
      if items[f].id in expanded && PathFrom(items, expanded, Some(items[f].id), e.index) != [] {
        PathThrough(items, expanded, f, e.index);
        PathEnds(items, expanded, Some(items[f].id), e.index);
      }
      var path := PathFrom(items, expanded, items[f].parent, e.index);
      if path != [] && path[0] == f && e.index != f {
        PathBelow(items, expanded, items[f].parent, f, e.index);
      }
    }
  }

  lemma {:induction false} WalkLists(items: seq<TreeItem>, expanded: set<string>, parent: Option<string>,
                                           depth: nat, from: nat)
    requires WellFormed(items) && from <= |items|
    requires parent.Some? ==> exists i :: 0 <= i < |items| && items[i].id == parent.value
    ensures Lists(items, expanded, parent, depth, from, Walk(items, expanded, parent, depth, from))
    decreases Remaining(items, parent), |items| - from
  {
    if from == |items| {
      NothingFrom(items, expanded, parent, depth);
    } else {
      WalkLists(items, expanded, parent, depth, from + 1);
      if items[from].parent != parent {
        NotAChild(items, expanded, parent, depth, from);
      } else {
        var below: seq<Entry> := [];
        if items[from].id in expanded {
          ChildIsLower(items, from);
          below := Walk(items, expanded, Some(items[from].id), depth + 1, 0);
          WalkLists(items, expanded, Some(items[from].id), depth + 1, 0);
        }
        Together(items, expanded, depth, from, below, Walk(items, expanded, parent, depth, from + 1));
      }
    }
  }

  lemma NothingFrom(items: seq<TreeItem>, expanded: set<string>, parent: Option<string>, depth: nat)
    requires WellFormed(items)
    ensures Lists(items, expanded, parent, depth, |items|, [])
  {
    forall e
      ensures !Listed(items, expanded, parent, depth, |items|, e)
    {
      if e.index < |items| {
        PathEnds(items, expanded, parent, e.index);
      }
    }
  }

  lemma NotAChild(items: seq<TreeItem>, expanded: set<string>, parent: Option<string>, depth: nat, from: nat)
    requires WellFormed(items) && from < |items| && items[from].parent != parent
    ensures forall e ::
      Listed(items, expanded, parent, depth, from, e) <==> Listed(items, expanded, parent, depth, from + 1, e)
  {
    forall e
      ensures Listed(items, expanded, parent, depth, from, e) <==> Listed(items, expanded, parent, depth, from + 1, e)
    {
      if e.index < |items| {
        PathEnds(items, expanded, parent, e.index);
      }
    }
  }

  /** A child, what is under it, and the later children, put together. */
  lemma Together(items: seq<TreeItem>, expanded: set<string>, depth: nat, from: nat,
                 below: seq<Entry>, rest: seq<Entry>)
    requires WellFormed(items) && from < |items|
    requires Lists(items, expanded, items[from].parent, depth, from + 1, rest)
    requires items[from].id in expanded ==> Lists(items, expanded, Some(items[from].id), depth + 1, 0, below)
    requires items[from].id !in expanded ==> below == []
    ensures Lists(items, expanded, items[from].parent, depth, from, [Entry(from, depth)] + below + rest)
  {
    var out := [Entry(from, depth)] + below + rest;
    forall e
      ensures e in out <==> Listed(items, expanded, items[from].parent, depth, from, e)
    {
      BelowListed(items, expanded, from, depth, e);
    }
    forall k, l | 0 <= k < l < |out|
      ensures InOrder(items, expanded, items[from].parent, out[k], out[l])
    {
      TogetherInOrder(items, expanded, depth, from, below, rest, k, l);
    }
  }

  lemma TogetherInOrder(items: seq<TreeItem>, expanded: set<string>, depth: nat, from: nat,
                        below: seq<Entry>, rest: seq<Entry>, k: nat, l: nat)
    requires WellFormed(items) && from < |items|
    requires Lists(items, expanded, items[from].parent, depth, from + 1, rest)
    requires items[from].id in expanded ==> Lists(items, expanded, Some(items[from].id), depth + 1, 0, below)
    requires items[from].id !in expanded ==> below == []
    requires k < l <= |below| + |rest|
    ensures var out := [Entry(from, depth)] + below + rest;
      InOrder(items, expanded, items[from].parent, out[k], out[l])
  {
    var out := [Entry(from, depth)] + below + rest;
    if k > |below| {
      assert out[k] == rest[k - 1 - |below|] && out[l] == rest[l - 1 - |below|];
    } else if l > |below| {
      assert out[l] == rest[l - 1 - |below|] && out[l] in rest;
      assert out[k] == Entry(from, depth) || (out[k] == below[k - 1] && out[k] in below);
      BelowListed(items, expanded, from, depth, out[k]);
      EarlierChildFirst(items, expanded, from, out[k], out[l]);
    } else {
      assert out[l] == below[l - 1] && out[l] in below;
      assert k > 0 ==> out[k] == below[k - 1] && out[k] in below;
      ChildThenBelow(items, expanded, from, depth, k > 0, out[k], out[l]);
    }
  }

  lemma EarlierChildFirst(items: seq<TreeItem>, expanded: set<string>, from: nat, a: Entry, b: Entry)
    requires WellFormed(items) && from < |items| && a.index < |items| && b.index < |items|
    requires var path := PathFrom(items, expanded, items[from].parent, a.index); path != [] && path[0] == from
    requires var path := PathFrom(items, expanded, items[from].parent, b.index); path != [] && path[0] > from
    ensures InOrder(items, expanded, items[from].parent, a, b)
  {
  }

  lemma ChildThenBelow(items: seq<TreeItem>, expanded: set<string>, from: nat, depth: nat, deep: bool,
                       a: Entry, b: Entry)
    requires WellFormed(items) && from < |items| && items[from].id in expanded
    requires Listed(items, expanded, Some(items[from].id), depth + 1, 0, b)
    requires if deep then
        Listed(items, expanded, Some(items[from].id), depth + 1, 0, a)
        && InOrder(items, expanded, Some(items[from].id), a, b)
      else a == Entry(from, depth)
    ensures InOrder(items, expanded, items[from].parent, a, b)
  {
    PathThrough(items, expanded, from, b.index);
    var path := PathFrom(items, expanded, Some(items[from].id), b.index);
    assert ([from] + path)[1..] == path;
    if deep {
      PathThrough(items, expanded, from, a.index);
      var other := PathFrom(items, expanded, Some(items[from].id), a.index);
      assert ([from] + other)[1..] == other;
    } else {
      assert [from][1..] == [];
    }
  }

  // ---------------------------------------------------------------------
  // The listing
  // ---------------------------------------------------------------------

  /** From the top, an item is reached exactly when its ancestors are all expanded, through
      all of them. */
  lemma {:induction false} PathFromTop(items: seq<TreeItem>, expanded: set<string>, i: nat)
    requires WellFormed(items) && i < |items|
    ensures PathFrom(items, expanded, None, i) != [] <==> Shown(items, expanded, i)
    ensures Shown(items, expanded, i) ==> PathFrom(items, expanded, None, i) == Ancestors(items, i) + [i]
  {
    if items[i].parent.Some? {
      PathFromTop(items, expanded, ParentOf(items, i));
    }
  }

  lemma {:induction false} BeforeIrreflexive(a: seq<nat>)
    ensures !Before(a, a)
  {
    if a != [] {
      BeforeIrreflexive(a[1..]);
    }
  }

  /** The listing is exactly the items whose ancestors are all expanded, each once, at the
      depth of as many ancestors, ordered as a depth-first walk orders them. */
  lemma VisibleIsDepthFirst(items: seq<TreeItem>, expanded: set<string>)
    requires WellFormed(items)
    ensures var visible := Visible(items, expanded);
      && (forall e :: e in visible <==>
            e.index < |items| && Shown(items, expanded, e.index) && e.depth == |Ancestors(items, e.index)|)
      && (forall k, l :: 0 <= k < l < |visible| ==>
            && visible[k].index < |items| && visible[l].index < |items|
            && visible[k].index != visible[l].index
            && Before(Ancestors(items, visible[k].index) + [visible[k].index],
                      Ancestors(items, visible[l].index) + [visible[l].index]))
  {
    var visible := Visible(items, expanded);
    WalkLists(items, expanded, None, 0, 0);
    forall e
      ensures e in visible <==>
        e.index < |items| && Shown(items, expanded, e.index) && e.depth == |Ancestors(items, e.index)|
    {
      if e.index < |items| {
        PathFromTop(items, expanded, e.index);
      }
    }
    forall k, l | 0 <= k < l < |visible|
      ensures visible[k].index < |items| && visible[l].index < |items|
      ensures visible[k].index != visible[l].index
      ensures Before(Ancestors(items, visible[k].index) + [visible[k].index],
                     Ancestors(items, visible[l].index) + [visible[l].index])
    {
      assert visible[k] in visible && visible[l] in visible;
      PathFromTop(items, expanded, visible[k].index);
      PathFromTop(items, expanded, visible[l].index);
      BeforeIrreflexive(PathFrom(items, expanded, None, visible[k].index));
    }
  }

  // ---------------------------------------------------------------------
  // Keys
  // ---------------------------------------------------------------------

  datatype KeyCode = ArrowUp | ArrowDown | ArrowLeft | ArrowRight | Home | End | Enter | Other

  datatype Outcome = Ignored | Moved | Opened | Closed | Activated

  datatype Nav = Nav(items: seq<TreeItem>, expanded: set<string>, focused: Option<string>)

  /** The `step` of every list behaviour, for the keys a tree moves by. */
  function StepTo(focused: nat, count: nat, key: KeyCode): (next: Option<nat>)
    ensures focused < count && next.Some? ==> next.value < count
  {
    if count == 0 then None
    else
      match key
      case ArrowDown => Some(if focused + 1 < count then focused + 1 else count - 1)
      case ArrowUp => Some(if focused == 0 then 0 else focused - 1)
      case Home => Some(0)
      case End => Some(count - 1)
      case _ => None
  }

  function IdsOf(items: seq<TreeItem>, entries: seq<Entry>): (ids: seq<string>)
    requires forall e :: e in entries ==> e.index < |items|
    ensures |ids| == |entries| && forall k :: 0 <= k < |entries| ==> ids[k] == items[entries[k].index].id
  {
    if entries == [] then []
    else
      assert entries[0] in entries;
      [items[entries[0].index].id] + IdsOf(items, entries[1..])
  }

  /** Where `id` is first among `ids`, 0 when it is not there. */
  function Position(ids: seq<string>, id: string): (at: nat)
    ensures ids != [] ==> at < |ids|
    ensures id in ids ==> ids[at] == id && id !in ids[..at]
  {
    if id !in ids || ids[0] == id then 0 else 1 + Position(ids[1..], id)
  }

  function FirstChild(items: seq<TreeItem>, id: string): Option<nat> {
    FirstChildFrom(items, id, 0)
  }

  function FirstChildFrom(items: seq<TreeItem>, id: string, from: nat): (r: Option<nat>)
    requires from <= |items|
    ensures r.Some? ==> from <= r.value < |items| && items[r.value].parent == Some(id)
                        && forall i :: from <= i < r.value ==> items[i].parent != Some(id)
    ensures r.None? ==> forall i :: from <= i < |items| ==> items[i].parent != Some(id)
    decreases |items| - from
  {
    if from == |items| then None
    else if items[from].parent == Some(id) then Some(from)
    else FirstChildFrom(items, id, from + 1)
  }

  function VisibleIds(items: seq<TreeItem>, expanded: set<string>): seq<string>
    requires WellFormed(items)
  {
    VisibleIsDepthFirst(items, expanded);
    IdsOf(items, Visible(items, expanded))
  }

  /** Whether `id` names an item. */
  predicate Has(items: seq<TreeItem>, id: string) {
    exists i :: 0 <= i < |items| && items[i].id == id
  }

  function OnKey(nav: Nav, key: KeyCode): (Nav, Outcome)
    requires WellFormed(nav.items)
  {
    if nav.focused.None? then (nav, Ignored)
    else
      var focused, visible := nav.focused.value, VisibleIds(nav.items, nav.expanded);
      match key
      case ArrowDown | ArrowUp | Home | End =>
        (match StepTo(Position(visible, focused), |visible|, key)
         case Some(next) => (nav.(focused := Some(visible[next])), Moved)
         case None => (nav, Ignored))
      case ArrowRight =>
        (match FirstChild(nav.items, focused)
         case None => (nav, Ignored)
         case Some(child) =>
           if focused !in nav.expanded then (nav.(expanded := nav.expanded + {focused}), Opened)
           else (nav.(focused := Some(nav.items[child].id)), Moved))
      case ArrowLeft =>
        if focused in nav.expanded then (nav.(expanded := nav.expanded - {focused}), Closed)
        else if Has(nav.items, focused) && nav.items[IndexOf(nav.items, focused)].parent.Some? then
          (nav.(focused := nav.items[IndexOf(nav.items, focused)].parent), Moved)
        else (nav, Ignored)
      case Enter => (nav, Activated)
      case Other => (nav, Ignored)
  }

  /** The focused item is one of the shown. */
  ghost predicate FocusShown(nav: Nav)
    requires WellFormed(nav.items)
  {
    match nav.focused
    case None => nav.items == []
    case Some(id) => Has(nav.items, id) && Shown(nav.items, nav.expanded, IndexOf(nav.items, id))
  }

  lemma {:induction false} ShownGrows(items: seq<TreeItem>, expanded: set<string>, more: set<string>, i: nat)
    requires WellFormed(items) && i < |items| && expanded <= more
    requires Shown(items, expanded, i)
    ensures Shown(items, more, i)
  {
    if items[i].parent.Some? {
      ShownGrows(items, expanded, more, ParentOf(items, i));
    }
  }

  /** Collapsing an item hides nothing at or before it. */
  lemma {:induction false} ShownWithoutLater(items: seq<TreeItem>, expanded: set<string>, later: nat, i: nat)
    requires WellFormed(items) && i <= later < |items|
    requires Shown(items, expanded, i)
    ensures Shown(items, expanded - {items[later].id}, i)
  {
    if items[i].parent.Some? {
      assert items[ParentOf(items, i)].id != items[later].id;
      ShownWithoutLater(items, expanded, later, ParentOf(items, i));
    }
  }

  lemma MovedTo(nav: Nav, i: nat)
    requires WellFormed(nav.items) && i < |nav.items| && Shown(nav.items, nav.expanded, i)
    ensures FocusShown(nav.(focused := Some(nav.items[i].id)))
  {
    assert IndexOf(nav.items, nav.items[i].id) == i;
  }

  lemma ShownAmong(nav: Nav, k: nat)
    requires WellFormed(nav.items) && k < |VisibleIds(nav.items, nav.expanded)|
    ensures FocusShown(nav.(focused := Some(VisibleIds(nav.items, nav.expanded)[k])))
  {
    VisibleIsDepthFirst(nav.items, nav.expanded);
    var entry := Visible(nav.items, nav.expanded)[k];
    assert entry in Visible(nav.items, nav.expanded);
    MovedTo(nav, entry.index);
  }

  lemma KeyKeepsFocusShown(nav: Nav, key: KeyCode)
    requires WellFormed(nav.items) && FocusShown(nav)
    ensures OnKey(nav, key).0.items == nav.items
    ensures FocusShown(OnKey(nav, key).0)
  {
    if nav.focused.Some? {
      var at := IndexOf(nav.items, nav.focused.value);
      match key
      case ArrowDown | ArrowUp | Home | End =>
        var ids := VisibleIds(nav.items, nav.expanded);
        var step := StepTo(Position(ids, nav.focused.value), |ids|, key);
        if step.Some? {
          ShownAmong(nav, step.value);
        }
      case ArrowRight =>
        var child := FirstChild(nav.items, nav.focused.value);
        if child.Some? {
          if nav.focused.value in nav.expanded {
            assert ParentOf(nav.items, child.value) == at;
            MovedTo(nav, child.value);
          } else {
            ShownGrows(nav.items, nav.expanded, nav.expanded + {nav.focused.value}, at);
          }
        }
      case ArrowLeft =>
        if nav.focused.value in nav.expanded {
          ShownWithoutLater(nav.items, nav.expanded, at, at);
        } else if nav.items[at].parent.Some? {
          MovedTo(nav, ParentOf(nav.items, at));
        }
      case Enter | Other =>
    }
  }

  function Toggled(nav: Nav, id: string): Nav {
    if id in nav.expanded then nav.(expanded := nav.expanded - {id}) else nav.(expanded := nav.expanded + {id})
  }

  function New(items: seq<TreeItem>): Nav {
    Nav(items, {}, if items == [] then None else Some(items[0].id))
  }

  function Pressed(nav: Nav, keys: seq<KeyCode>): Nav
    requires WellFormed(nav.items)
    decreases |keys|
  {
    if keys == [] then nav
    else
      var next := OnKey(nav, keys[0]).0;
      Pressed(next, keys[1..])
  }

  /** Whatever keys are pressed on a new tree, the focused item is always one of those shown. */
  lemma FocusAlwaysShown(items: seq<TreeItem>, keys: seq<KeyCode>)
    requires WellFormed(items)
    ensures Pressed(New(items), keys).items == items
    ensures FocusShown(Pressed(New(items), keys))
    ensures items != [] ==>
      Pressed(New(items), keys).focused.Some?
      && Pressed(New(items), keys).focused.value in VisibleIds(items, Pressed(New(items), keys).expanded)
  {
    if items != [] {
      assert ParentEarlier(items, 0);
      MovedTo(New(items), 0);
    }
    PressesKeepFocusShown(New(items), keys);
    if items != [] {
      FocusedIsVisible(Pressed(New(items), keys));
    }
  }

  lemma {:induction false} PressesKeepFocusShown(nav: Nav, keys: seq<KeyCode>)
    requires WellFormed(nav.items) && FocusShown(nav)
    ensures Pressed(nav, keys).items == nav.items
    ensures FocusShown(Pressed(nav, keys))
    decreases |keys|
  {
    if keys != [] {
      KeyKeepsFocusShown(nav, keys[0]);
      PressesKeepFocusShown(OnKey(nav, keys[0]).0, keys[1..]);
    }
  }

  lemma FocusedIsVisible(nav: Nav)
    requires WellFormed(nav.items) && FocusShown(nav) && nav.focused.Some?
    ensures nav.focused.value in VisibleIds(nav.items, nav.expanded)
  {
    var at := IndexOf(nav.items, nav.focused.value);
    VisibleIsDepthFirst(nav.items, nav.expanded);
    var entry := Entry(at, |Ancestors(nav.items, at)|);
    var visible := Visible(nav.items, nav.expanded);
    assert entry in visible;
    var k :| 0 <= k < |visible| && visible[k] == entry;
    assert VisibleIds(nav.items, nav.expanded)[k] == nav.items[at].id;
  }

  /** An item's ancestors, among all items, by where they are. */
  predicate IsAncestor(items: seq<TreeItem>, above: nat, i: nat)
    requires WellFormed(items) && i < |items|
  {
    above in Ancestors(items, i)
  }

  lemma {:induction false} ShownIffAncestorsExpanded(items: seq<TreeItem>, expanded: set<string>, i: nat)
    requires WellFormed(items) && i < |items|
    ensures forall a :: a in Ancestors(items, i) ==> a < i
    ensures Shown(items, expanded, i) <==> forall a :: a in Ancestors(items, i) ==> items[a].id in expanded
  {
    if items[i].parent.Some? {
      ShownIffAncestorsExpanded(items, expanded, ParentOf(items, i));
    }
  }

  /** Expanding or collapsing an item from outside keeps the focused item shown exactly when
      the item is not one of its ancestors: only a collapse can hide it, and every ancestor of a
      shown item is expanded. */
  lemma ToggleKeepsFocusShown(nav: Nav, id: string)
    requires WellFormed(nav.items) && nav.focused.Some? && FocusShown(nav)
    ensures FocusShown(Toggled(nav, id))
       <==> !(Has(nav.items, id)
              && IsAncestor(nav.items, IndexOf(nav.items, id), IndexOf(nav.items, nav.focused.value)))
  {
    var at := IndexOf(nav.items, nav.focused.value);
    ShownIffAncestorsExpanded(nav.items, nav.expanded, at);
    ShownIffAncestorsExpanded(nav.items, Toggled(nav, id).expanded, at);
    forall a | a in Ancestors(nav.items, at) && nav.items[a].id == id
      ensures a == IndexOf(nav.items, id)
    {
    }
  }

  /** Toggling an item opens it if it was closed and closes it if it was open, and changes nothing else. */
  lemma ToggleTwiceIsNothing(nav: Nav, id: string)
    ensures Toggled(Toggled(nav, id), id) == nav
    ensures forall other ::
      other in Toggled(nav, id).expanded <==> (if other == id then other !in nav.expanded else other in nav.expanded)
  {
    assert nav.expanded - {id} + {id} == nav.expanded || id !in nav.expanded;
    assert nav.expanded + {id} - {id} == nav.expanded || id in nav.expanded;
  }

  // ---------------------------------------------------------------------
  // The listing is what the arrows move through
  // ---------------------------------------------------------------------

  /** The tree after `k` presses of Down. */
  function Downs(nav: Nav, k: nat): (after: Nav)
    requires WellFormed(nav.items)
    ensures after.items == nav.items && after.expanded == nav.expanded
  {
    if k == 0 then nav else OnKey(Downs(nav, k - 1), ArrowDown).0
  }

  /** Home and then `k` presses of Down focus the `k`-th shown item, or the last when there are
      fewer. */
  lemma DownGoesThroughTheListing(nav: Nav, k: nat)
    requires WellFormed(nav.items) && nav.focused.Some? && FocusShown(nav)
    ensures OnKey(nav, Home).0.items == nav.items && VisibleIds(nav.items, nav.expanded) != []
    ensures Downs(OnKey(nav, Home).0, k) == Landing(nav, k)
  {
    HomeGoesFirst(nav);
    DownFrom(nav, OnKey(nav, Home).0, k);
  }

  lemma HomeGoesFirst(nav: Nav)
    requires WellFormed(nav.items) && nav.focused.Some? && FocusShown(nav)
    ensures VisibleIds(nav.items, nav.expanded) != []
    ensures OnKey(nav, Home).0 == Landing(nav, 0)
  {
    FocusedIsVisible(nav);
  }

  /** The tree with the `k`-th shown item focused, or the last when there are fewer. */
  function Landing(nav: Nav, k: nat): Nav
    requires WellFormed(nav.items)
  {
    var ids := VisibleIds(nav.items, nav.expanded);
    if ids == [] then nav else nav.(focused := Some(ids[if k < |ids| then k else |ids| - 1]))
  }

  lemma DownFrom(nav: Nav, start: Nav, k: nat)
    requires WellFormed(nav.items) && start == Landing(nav, 0)
    ensures Downs(start, k) == Landing(nav, k)
  {
    for i := 0 to k
      invariant Downs(start, i) == Landing(nav, i)
    {
      DownNext(nav, start, i);
    }
  }

  lemma DownNext(nav: Nav, start: Nav, k: nat)
    requires WellFormed(nav.items) && WellFormed(start.items)
    requires Downs(start, k) == Landing(nav, k)
    ensures Downs(start, k + 1) == Landing(nav, k + 1)
  {
    DownOnce(nav, k);
  }

  lemma DownOnce(nav: Nav, from: nat)
    requires WellFormed(nav.items)
    ensures OnKey(Landing(nav, from), ArrowDown).0 == Landing(nav, from + 1)
  {
    var ids := VisibleIds(nav.items, nav.expanded);
    if ids != [] {
      var at := if from < |ids| then from else |ids| - 1;
      VisibleIdsDistinct(nav.items, nav.expanded);
      assert Position(ids, ids[at]) == at;
    }
  }

  lemma VisibleIdsDistinct(items: seq<TreeItem>, expanded: set<string>)
    requires WellFormed(items)
    ensures var ids := VisibleIds(items, expanded); forall k, l :: 0 <= k < l < |ids| ==> ids[k] != ids[l]
  {
    VisibleIsDepthFirst(items, expanded);
  }

  /** The tree after `k` presses of Up. */
  function Ups(nav: Nav, k: nat): (after: Nav)
    requires WellFormed(nav.items)
    ensures after.items == nav.items && after.expanded == nav.expanded
  {
    if k == 0 then nav else OnKey(Ups(nav, k - 1), ArrowUp).0
  }

  /** From any shown item, Home and End go to the first and the last, and none of the vertical keys is
      ignored. */
  lemma EndsAreShown(nav: Nav, k: nat)
    requires WellFormed(nav.items) && k < |VisibleIds(nav.items, nav.expanded)|
    ensures OnKey(Landing(nav, k), Home).0 == Landing(nav, 0)
    ensures OnKey(Landing(nav, k), End).0 == Landing(nav, |VisibleIds(nav.items, nav.expanded)| - 1)
    ensures forall key :: key in {ArrowUp, ArrowDown, Home, End} ==> OnKey(Landing(nav, k), key).1 == Moved
  {
  }

  lemma UpOnce(nav: Nav, k: nat)
    requires WellFormed(nav.items) && k < |VisibleIds(nav.items, nav.expanded)|
    ensures OnKey(Landing(nav, k), ArrowUp).0 == Landing(nav, if k == 0 then 0 else k - 1)
  {
    var ids := VisibleIds(nav.items, nav.expanded);
    VisibleIdsDistinct(nav.items, nav.expanded);
    assert Position(ids, ids[k]) == k;
  }

  /** The focused item is among those shown. */
  lemma FocusedAt(nav: Nav) returns (at: nat)
    requires WellFormed(nav.items) && nav.focused.Some? && FocusShown(nav)
    ensures at < |VisibleIds(nav.items, nav.expanded)| && Landing(nav, at) == nav
    ensures nav.focused.value == VisibleIds(nav.items, nav.expanded)[at]
  {
    FocusedIsVisible(nav);
    at :| 0 <= at < |VisibleIds(nav.items, nav.expanded)|
          && VisibleIds(nav.items, nav.expanded)[at] == nav.focused.value;
  }

  /** End focuses the last shown item, and `k` presses of Up from there the one `k` before it, or the first
      when there are fewer. */
  lemma UpGoesBackThroughTheListing(nav: Nav, k: nat)
    requires WellFormed(nav.items) && nav.focused.Some? && FocusShown(nav)
    ensures OnKey(nav, End).0.items == nav.items && VisibleIds(nav.items, nav.expanded) != []
    ensures var shown := |VisibleIds(nav.items, nav.expanded)|;
      Ups(OnKey(nav, End).0, k) == Landing(nav, if k < shown then shown - 1 - k else 0)
  {
    var at := FocusedAt(nav);
    EndsAreShown(nav, at);
    UpsFrom(nav, OnKey(nav, End).0, k);
  }

  /** Where `k` presses of Up from the last of `shown` items lead. */
  function FromEnd(shown: nat, k: nat): nat {
    if k < shown then shown - 1 - k else 0
  }

  lemma UpsFrom(nav: Nav, start: Nav, k: nat)
    requires WellFormed(nav.items) && VisibleIds(nav.items, nav.expanded) != []
    requires start == Landing(nav, |VisibleIds(nav.items, nav.expanded)| - 1)
    ensures Ups(start, k) == Landing(nav, FromEnd(|VisibleIds(nav.items, nav.expanded)|, k))
  {
    for i := 0 to k
      invariant Ups(start, i) == Landing(nav, FromEnd(|VisibleIds(nav.items, nav.expanded)|, i))
    {
      UpNext(nav, start, i, FromEnd(|VisibleIds(nav.items, nav.expanded)|, i));
    }
  }

  lemma UpNext(nav: Nav, start: Nav, k: nat, at: nat)
    requires WellFormed(nav.items) && WellFormed(start.items) && at < |VisibleIds(nav.items, nav.expanded)|
    requires Ups(start, k) == Landing(nav, at)
    ensures Ups(start, k + 1) == Landing(nav, if at == 0 then 0 else at - 1)
  {
    UpOnce(nav, at);
  }

  lemma DownThenUp(nav: Nav, k: nat)
    requires WellFormed(nav.items) && k + 1 < |VisibleIds(nav.items, nav.expanded)|
    ensures OnKey(OnKey(Landing(nav, k), ArrowDown).0, ArrowUp).0 == Landing(nav, k)
    ensures OnKey(OnKey(Landing(nav, k + 1), ArrowUp).0, ArrowDown).0 == Landing(nav, k + 1)
  {
    DownOnce(nav, k);
    UpOnce(nav, k + 1);
  }

  /** Up takes Down back wherever another item is shown after the focused one; from the last Down stays. */
  lemma UpUndoesDown(nav: Nav)
    requires WellFormed(nav.items) && nav.focused.Some? && FocusShown(nav)
    ensures var ids := VisibleIds(nav.items, nav.expanded);
      && ids != [] && OnKey(nav, ArrowDown).0.items == nav.items
      && if nav.focused.value == ids[|ids| - 1] then OnKey(nav, ArrowDown).0 == nav
         else OnKey(OnKey(nav, ArrowDown).0, ArrowUp).0 == nav
  {
    var at := FocusedAt(nav);
    VisibleIdsDistinct(nav.items, nav.expanded);
    DownOnce(nav, at);
    if at + 1 < |VisibleIds(nav.items, nav.expanded)| {
      DownThenUp(nav, at);
    }
  }

  /** Down takes Up back wherever another item is shown before the focused one; from the first Up stays. */
  lemma DownUndoesUp(nav: Nav)
    requires WellFormed(nav.items) && nav.focused.Some? && FocusShown(nav)
    ensures var ids := VisibleIds(nav.items, nav.expanded);
      && ids != [] && OnKey(nav, ArrowUp).0.items == nav.items
      && if nav.focused.value == ids[0] then OnKey(nav, ArrowUp).0 == nav
         else OnKey(OnKey(nav, ArrowUp).0, ArrowDown).0 == nav
  {
    var at := FocusedAt(nav);
    VisibleIdsDistinct(nav.items, nav.expanded);
    UpOnce(nav, at);
    if at > 0 {
      DownThenUp(nav, at - 1);
    }
  }

  /** The other keys: Right opens an item with children, or, when it is open, goes to the first of them; Left
      closes an open item, or else goes to its parent; Enter activates; and what changes nothing is ignored. */
  lemma SidewaysKeys(nav: Nav)
    requires WellFormed(nav.items) && nav.focused.Some? && FocusShown(nav)
    ensures var id := nav.focused.value;
      var children := set i | 0 <= i < |nav.items| && nav.items[i].parent == Some(id);
      && (children == {} ==> OnKey(nav, ArrowRight) == (nav, Ignored))
      && (children != {} && id !in nav.expanded ==>
            OnKey(nav, ArrowRight) == (nav.(expanded := nav.expanded + {id}), Opened))
      && (children != {} && id in nav.expanded ==>
            exists first :: first in children && (forall i :: i in children ==> first <= i)
                            && OnKey(nav, ArrowRight) == (nav.(focused := Some(nav.items[first].id)), Moved))
    ensures var id := nav.focused.value;
      var parent := nav.items[IndexOf(nav.items, id)].parent;
      OnKey(nav, ArrowLeft)
      == if id in nav.expanded then (nav.(expanded := nav.expanded - {id}), Closed)
         else if parent.Some? then (nav.(focused := parent), Moved)
         else (nav, Ignored)
    ensures OnKey(nav, Enter) == (nav, Activated) && OnKey(nav, Other) == (nav, Ignored)
  {
    var id := nav.focused.value;
    var children := set i | 0 <= i < |nav.items| && nav.items[i].parent == Some(id);
    var child := FirstChild(nav.items, id);
    if child.Some? {
      assert child.value in children;
    } else {
      assert children == {};
    }
  }

  /** Right twice goes into a collapsed item, to its first child; Left twice comes back out and
      leaves everything as it was, whatever the child, unless that is itself expanded. */
  lemma InAndOut(nav: Nav)
    requires WellFormed(nav.items) && FocusShown(nav) && nav.focused.Some?
    requires FirstChild(nav.items, nav.focused.value).Some?
    requires nav.focused.value !in nav.expanded
    requires nav.items[FirstChild(nav.items, nav.focused.value).value].id !in nav.expanded
    ensures var unfolded := OnKey(nav, ArrowRight).0;
      var inside := OnKey(unfolded, ArrowRight).0;
      var outside := OnKey(inside, ArrowLeft).0;
      && inside.focused == Some(nav.items[FirstChild(nav.items, nav.focused.value).value].id)
      && outside == unfolded
      && OnKey(outside, ArrowLeft).0 == nav
  {
    var id := nav.focused.value;
    var child := FirstChild(nav.items, id).value;
    assert nav.items[ParentOf(nav.items, child)].id == id;
    assert IndexOf(nav.items, nav.items[child].id) == child;
    assert nav.expanded + {id} - {id} == nav.expanded;
  }

  // ---------------------------------------------------------------------
  // In place
  // ---------------------------------------------------------------------

  /** What one turn of the walk's loop lists. */
  function Turn(items: seq<TreeItem>, expanded: set<string>, parent: Option<string>, depth: nat, i: nat): seq<Entry>
    requires WellFormed(items) && i < |items|
  {
    if items[i].parent != parent then []
    else if items[i].id in expanded then
      [Entry(i, depth)] + Walk(items, expanded, Some(items[i].id), depth + 1, 0)
    else [Entry(i, depth)]
  }

  lemma WalkAt(items: seq<TreeItem>, expanded: set<string>, parent: Option<string>, depth: nat, i: nat)
    requires WellFormed(items) && i < |items|
    requires parent.Some? ==> exists i :: 0 <= i < |items| && items[i].id == parent.value
    ensures Walk(items, expanded, parent, depth, i)
         == Turn(items, expanded, parent, depth, i) + Walk(items, expanded, parent, depth, i + 1)
  {
  }

  class TreeNav {
    var items: seq<TreeItem>
    var expanded: set<string>
    var focused: Option<string>

    ghost function View(): Nav
      reads this
    {
      Nav(items, expanded, focused)
    }

    constructor (items: seq<TreeItem>)
      ensures View() == New(items)
    {
      this.items := items;
      expanded := {};
      focused := if items == [] then None else Some(items[0].id);
    }

    method Toggle(id: string)
      modifies this
      ensures View() == Toggled(old(View()), id)
    {
      if id in expanded {
        expanded := expanded - {id};
      } else {
        expanded := expanded + {id};
      }
    }

    method WalkInto(parent: Option<string>, depth: nat, before: seq<Entry>) returns (out: seq<Entry>)
      requires WellFormed(items)
      requires parent.Some? ==> exists i :: 0 <= i < |items| && items[i].id == parent.value
      ensures out == before + Walk(items, expanded, parent, depth, 0)
      decreases Remaining(items, parent)
    {
      out := before;
      for i := 0 to |items|
        invariant out + Walk(items, expanded, parent, depth, i) == before + Walk(items, expanded, parent, depth, 0)
      {
        ghost var start := out;
        if items[i].parent == parent {
          out := out + [Entry(i, depth)];
          if items[i].id in expanded {
            ChildIsLower(items, i);
            out := WalkInto(Some(items[i].id), depth + 1, out);
          }
        }
        assert out == start + Turn(items, expanded, parent, depth, i);
        WalkAt(items, expanded, parent, depth, i);
        Joined(start, Turn(items, expanded, parent, depth, i), Walk(items, expanded, parent, depth, i + 1));
      }
    }

    method ListVisible() returns (out: seq<Entry>)
      requires WellFormed(items)
      ensures out == Visible(items, expanded)
    {
      out := WalkInto(None, 0, []);
    }

    method ListVisibleIds() returns (ids: seq<string>)
      requires WellFormed(items)
      ensures ids == VisibleIds(items, expanded)
    {
      var shown := ListVisible();
      VisibleIsDepthFirst(items, expanded);
      ids := IdsOf(items, shown);
    }

    /** One key press. */
    method Key(key: KeyCode) returns (outcome: Outcome)
      requires WellFormed(items)
      modifies this`expanded, this`focused
      ensures (View(), outcome) == OnKey(old(View()), key)
    {
      var visible := ListVisibleIds();
      if focused.None? {
        return Ignored;
      }
      var id := focused.value;
      match key
      case ArrowDown | ArrowUp | Home | End =>
        var next := StepTo(Position(visible, id), |visible|, key);
        if next.None? {
          return Ignored;
        }
        focused := Some(visible[next.value]);
        return Moved;
      case ArrowRight =>
        var child := FirstChild(items, id);
        if child.None? {
          return Ignored;
        }
        if id !in expanded {
          expanded := expanded + {id};
          return Opened;
        }
        focused := Some(items[child.value].id);
        return Moved;
      case ArrowLeft =>
        if id in expanded {
          expanded := expanded - {id};
          return Closed;
        }
        if Has(items, id) {
          var parent := items[IndexOf(items, id)].parent;
          if parent.Some? {
            focused := parent;
            return Moved;
          }
        }
        return Ignored;
      case Enter =>
        return Activated;
      case Other =>
        return Ignored;
    }
  }
}
