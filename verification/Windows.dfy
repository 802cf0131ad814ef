/** Window topology: modal windows, and closing a window with everything modal to it
    (crates/rustnative-core/src/application.rs). */
module Windows {
  import opened Wrappers

  type WindowId = nat

  /** Each open window's modal parent. */
  type Topology = map<WindowId, Option<WindowId>>

  const PRIMARY: WindowId := 0

  /** The last window identity an allocator may hand out, and the first it fails loudly at. */
  const EXHAUSTED: nat := 0xFFFF_FFFF_FFFF_FFFF

  /** Each window of the path after the first is modal to the one before it. */
  ghost predicate ModalPath(windows: Topology, path: seq<WindowId>) {
    && path != []
    && forall i :: 0 < i < |path| ==> path[i] in windows && windows[path[i]] == Some(path[i - 1])
  }

  /** `d` is `id`, or modal to it through any number of windows. */
  ghost predicate ModalTo(windows: Topology, id: WindowId, d: WindowId) {
    exists path :: ModalPath(windows, path) && path[0] == id && path[|path| - 1] == d
  }

  lemma ModalToSelf(windows: Topology, id: WindowId)
    ensures ModalTo(windows, id, id)
  {
    assert ModalPath(windows, [id]);
  }

  lemma ModalToChild(windows: Topology, id: WindowId, d: WindowId, child: WindowId)
    requires ModalTo(windows, id, d) && child in windows && windows[child] == Some(d)
    ensures ModalTo(windows, id, child)
  {
    var path :| ModalPath(windows, path) && path[0] == id && path[|path| - 1] == d;
    assert ModalPath(windows, path + [child]);
  }

  /** A set holding `id` and, with each window, the windows modal to it, holds all modal to `id`. */
  lemma {:induction false} ClosureHoldsPath(windows: Topology, closed: set<WindowId>, path: seq<WindowId>)
    requires ModalPath(windows, path) && path[0] in closed
    requires forall d :: d in windows && windows[d].Some? && windows[d].value in closed ==> d in closed
    ensures path[|path| - 1] in closed
  {
    if |path| > 1 {
      ClosureHoldsPath(windows, closed, path[..|path| - 1]);
    }
  }

  /** What closing `id` leaves open. */
  ghost function Close(windows: Topology, id: WindowId): Topology {
    if id == PRIMARY || id !in windows then windows
    else map d | d in windows && !ModalTo(windows, id, d) :: windows[d]
  }

  // ---------------------------------------------------------------------
  // The application's windows
  // ---------------------------------------------------------------------

  class Application {
    var windows: Topology
    var nextWindowId: nat

    ghost function View(): App
      reads this
    {
      App(windows, nextWindowId)
    }

    constructor ()
      ensures windows == map[PRIMARY := None] && nextWindowId == 1 && View() == START
    {
      windows, nextWindowId := map[PRIMARY := None], 1;
    }

    /** Allocates the next identity and opens a window under it; `None` stands for the panic
        of an exhausted allocator. */
    method OpenWindow(modalParent: Option<WindowId>) returns (id: Option<WindowId>)
      modifies this
      ensures old(nextWindowId) < EXHAUSTED ==>
        && id == Some(old(nextWindowId)) && nextWindowId == old(nextWindowId) + 1
        && windows == old(windows)[old(nextWindowId) := modalParent]
      ensures old(nextWindowId) >= EXHAUSTED ==>
        id == None && nextWindowId == old(nextWindowId) && windows == old(windows)
      ensures View() == Step(old(View()), Open(modalParent))
    {
      if nextWindowId >= EXHAUSTED {
        return None;
      }
      id := Some(nextWindowId);
      nextWindowId := nextWindowId + 1;
      windows := windows[id.value := modalParent];
    }

    /** The windows modal to `current` (and with it, perhaps, to `id`), in whatever order the map lists them. */
    method Children(ghost id: WindowId, current: WindowId) returns (children: seq<WindowId>)
      ensures forall c :: c in children <==> c in windows && windows[c] == Some(current)
      ensures ModalTo(windows, id, current) ==> forall c :: c in children ==> ModalTo(windows, id, c)
    {
      children := [];
      var left := set c | c in windows && windows[c] == Some(current);
      while left != {}
        invariant forall c :: c in windows && windows[c] == Some(current) <==> c in left || c in children
      {
        var c :| c in left;
        left, children := left - {c}, children + [c];
      }
      if ModalTo(windows, id, current) {
        forall c | c in children
          ensures ModalTo(windows, id, c)
        {
          ModalToChild(windows, id, current, c);
        }
      }
    }

    static lemma Fewer(all: set<WindowId>, closing: set<WindowId>, current: WindowId)
      requires current in all && current !in closing
      ensures |all - (closing + {current})| < |all - closing|
    {
      assert all - (closing + {current}) == all - closing - {current};
    }

    /** Everything modal to `id`, found through a stack of windows still to visit. */
    method Closing(id: WindowId) returns (closing: set<WindowId>)
      requires id in windows
      ensures forall d :: d in closing ==> d in windows && ModalTo(windows, id, d)
      ensures id in closing
      ensures forall d :: d in windows && windows[d].Some? && windows[d].value in closing ==> d in closing
    {
      var pending := [id];
      closing := {};
      ModalToSelf(windows, id);
      while pending != []
        invariant closing <= windows.Keys
        invariant id in closing || id in pending
        invariant forall d :: d in closing || d in pending ==> d in windows && ModalTo(windows, id, d)
        invariant forall d :: d in windows && windows[d].Some? && windows[d].value in closing ==>
          d in closing || d in pending
        decreases |windows.Keys - closing|, |pending|
      {
        ghost var before := pending;
        var current := pending[|pending| - 1];
        pending := pending[..|pending| - 1];
        assert before == pending + [current];
        assert forall d :: d in before <==> d == current || d in pending;
        if current !in closing {
          Fewer(windows.Keys, closing, current);
          closing := closing + {current};
          var children := Children(id, current);
          pending := pending + children;
        }
      }
    }

    /** Closes `id` and everything modal to it. */
    method CloseWindow(id: WindowId) returns (closed: bool)
      modifies this`windows
      ensures closed == (id != PRIMARY && id in old(windows))
      ensures !closed ==> windows == old(windows)
      ensures closed ==> forall d :: d in windows <==> d in old(windows) && !ModalTo(old(windows), id, d)
      ensures forall d :: d in windows ==> d in old(windows) && windows[d] == old(windows)[d]
      ensures View() == Step(old(View()), CloseIt(id))
    {
      if id == PRIMARY || id !in windows {
        return false;
      }
      var closing := Closing(id);
      forall d | d in windows && ModalTo(windows, id, d)
        ensures d in closing
      {
        var path :| ModalPath(windows, path) && path[0] == id && path[|path| - 1] == d;
        ClosureHoldsPath(windows, closing, path);
      }
      windows := map d | d in windows && d !in closing :: windows[d];
      return true;
    }
  }

  // ---------------------------------------------------------------------
  // Runs
  // ---------------------------------------------------------------------

  datatype App = App(windows: Topology, next: nat)

  datatype Event = Open(modalParent: Option<WindowId>) | CloseIt(id: WindowId)

  ghost function Step(app: App, event: Event): App {
    match event
    case Open(parent) =>
      if app.next < EXHAUSTED then App(app.windows[app.next := parent], app.next + 1) else app
    case CloseIt(id) => app.(windows := Close(app.windows, id))
  }

  ghost function Run(app: App, events: seq<Event>): App
    decreases |events|
  {
    if events == [] then app else Run(Step(app, events[0]), events[1..])
  }

  const START := App(map[PRIMARY := None], 1)

  ghost predicate Sound(app: App) {
    && PRIMARY in app.windows && app.windows[PRIMARY] == None
    && PRIMARY < app.next
    && forall id :: id in app.windows ==> id < app.next
  }

  /** Every open window's modal parent is open. */
  ghost predicate ParentsOpen(app: App) {
    forall id :: id in app.windows && app.windows[id].Some? ==> app.windows[id].value in app.windows
  }

  /** A window opened modal to none, to an open window, or (naming the identity it is about
      to get) to itself. */
  predicate Proper(app: App, event: Event) {
    match event
    case Open(Some(parent)) => parent in app.windows || parent == app.next || app.next >= EXHAUSTED
    case _ => true
  }

  /** Only opening a window modal to one that is not open leaves a parent missing. */
  lemma StepParentsOpen(app: App, event: Event)
    requires Sound(app) && ParentsOpen(app)
    ensures ParentsOpen(Step(app, event)) <==> Proper(app, event)
  {
    match event
    case Open(parent) =>
      if app.next < EXHAUSTED {
        var next := Step(app, event);
        assert app.next in next.windows && next.windows[app.next] == parent;
      }
    case CloseIt(id) =>
      var next := Step(app, event);
      forall d | d in next.windows && next.windows[d].Some?
        ensures next.windows[d].value in next.windows
      {
        var parent := app.windows[d].value;
        if id != PRIMARY && id in app.windows && ModalTo(app.windows, id, parent) {
          ModalToChild(app.windows, id, parent, d);
        }
      }
  }

  lemma StepSound(app: App, event: Event)
    requires Sound(app)
    ensures Sound(Step(app, event))
    ensures forall id :: id < app.next && id !in app.windows ==>
      id < Step(app, event).next && id !in Step(app, event).windows
  {
    if event.CloseIt? && event.id != PRIMARY {
      PrimaryIsTop(app.windows, event.id);
    }
  }

  /** The primary window is modal to nothing but itself. */
  lemma PrimaryIsTop(windows: Topology, id: WindowId)
    requires PRIMARY in windows && windows[PRIMARY] == None && id != PRIMARY
    ensures !ModalTo(windows, id, PRIMARY)
  {
    forall path | ModalPath(windows, path) && path[0] == id
      ensures path[|path| - 1] != PRIMARY
    {
      var last := |path| - 1;
      assert last > 0 ==> path[last] in windows && windows[path[last]] == Some(path[last - 1]);
    }
  }

  ghost predicate AllProper(app: App, events: seq<Event>)
    decreases |events|
  {
    events == [] || (Proper(app, events[0]) && AllProper(Step(app, events[0]), events[1..]))
  }

  ghost predicate ParentsOpenThroughout(app: App, events: seq<Event>)
    decreases |events|
  {
    ParentsOpen(app) && (events == [] || ParentsOpenThroughout(Step(app, events[0]), events[1..]))
  }

  lemma {:induction false} RunSound(app: App, events: seq<Event>)
    requires Sound(app)
    ensures Sound(Run(app, events))
    ensures forall id :: id < app.next && id !in app.windows ==> id !in Run(app, events).windows
    decreases |events|
  {
    if events != [] {
      StepSound(app, events[0]);
      RunSound(Step(app, events[0]), events[1..]);
    }
  }

  lemma {:induction false} RunParentsOpen(app: App, events: seq<Event>)
    requires Sound(app) && ParentsOpen(app)
    ensures ParentsOpenThroughout(app, events) <==> AllProper(app, events)
    ensures AllProper(app, events) ==> ParentsOpen(Run(app, events))
    decreases |events|
  {
    if events != [] {
      StepSound(app, events[0]);
      StepParentsOpen(app, events[0]);
      if Proper(app, events[0]) {
        RunParentsOpen(Step(app, events[0]), events[1..]);
      }
    }
  }

  lemma {:induction false} RunAppend(app: App, events: seq<Event>, later: seq<Event>)
    ensures Run(app, events + later) == Run(Run(app, events), later)
    decreases |events|
  {
    if events == [] {
      assert events + later == later;
    } else {
      assert (events + later)[1..] == events[1..] + later;
      RunAppend(Step(app, events[0]), events[1..], later);
    }
  }

  /** Over every run of opens and closes: the primary window stays open, modal to none; every
      open window's parent is open throughout exactly when no window is opened modal to one
      that is not; and a window once closed is never open again. */
  lemma TopologyHolds(events: seq<Event>, later: seq<Event>, id: WindowId)
    ensures var app := Run(START, events); PRIMARY in app.windows && app.windows[PRIMARY] == None
    ensures ParentsOpenThroughout(START, events) <==> AllProper(START, events)
    ensures id < Run(START, events).next && id !in Run(START, events).windows ==>
      id !in Run(START, events + later).windows
  {
    RunSound(START, events);
    RunSound(Run(START, events), later);
    RunAppend(START, events, later);
    RunParentsOpen(START, events);
  }
}
