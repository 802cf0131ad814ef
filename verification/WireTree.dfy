/** The tree on the wire: a node as data and back (`from_node` and `into_node`,
    crates/rustnative-core/src/wire.rs, over the constructors of node.rs). */
module WireTree {
  import opened Identity
  import opened WireKeys
  import opened Wrappers

  // Values the wire carries without reading them.
  datatype Layout = Layout(data: int)
  datatype Cursor = Cursor(data: int)
  datatype GridStyle = GridStyle(tracks: int)
  datatype Drawing = Drawing(operations: seq<int>)

  /** The roles node kinds start with, and every other role. */
  datatype Role = LabelRole | ButtonRole | TextInputRole | TabListRole | CanvasRole | GroupRole | OtherRole(data: int)

  datatype EdgeInsets = EdgeInsets(top: int, end: int, bottom: int, start: int)

  datatype Axis = Vertical | Horizontal

  datatype ListStyle = ListStyle(itemCount: nat, extent: int, overscan: nat, axis: Axis)

  datatype Alignment = Start | Center | End | Stretch

  datatype Overflow = Visible | Clip | Scroll

  datatype ContainerStyle = ContainerStyle(padding: EdgeInsets, gap: int, alignItems: Alignment, overflow: Overflow)

  /** The styles the grid and virtual-list constructors give their containers. */
  const GRID_STYLE := ContainerStyle(EdgeInsets(0, 0, 0, 0), 0, Stretch, Clip)
  const LIST_STYLE := ContainerStyle(EdgeInsets(0, 0, 0, 0), 0, Stretch, Scroll)

  /** A native control: what it tells assistive technology, and the rest of its state. */
  datatype Control = Control(role: Role, focusable: bool, name: Option<string>, state: int)

  /** Accessibility metadata; `state` stands for everything the wire does not carry. */
  datatype Info = Info(role: Role, name: Option<string>, description: Option<string>, focusable: bool, state: int)

  datatype Content =
    | Label(text: string)
    | Button(text: string)
    | TextInput(value: string)
    | TabBar(labels: seq<string>, selected: nat)
    | ControlNode(control: Control)
    | Canvas(drawing: Drawing)
    | Surface(foreign: Option<string>)
    | Column(style: ContainerStyle, grid: Option<GridStyle>, list: Option<ListStyle>, children: seq<Node>)
    | Row(style: ContainerStyle, list: Option<ListStyle>, children: seq<Node>)

  datatype Node = Node(
    id: NodeId, content: Content, layout: Layout, info: Info, disabled: bool, hidden: bool, opacity: real,
    itemIndex: Option<nat>, command: Option<string>, cursor: Option<Cursor>, sharedId: Option<NodeId>)

  datatype WireKind =
    | WireLabel(text: string)
    | WireButton(text: string)
    | WireTextInput(value: string)
    | WireTabBar(labels: seq<string>, selected: nat)
    | WireControl(control: Control)
    | WireCanvas
    | WireSurface
    | WireForeign(foreign: string)
    | WireColumn(style: ContainerStyle, grid: Option<GridStyle>, children: seq<WireNode>)
    | WireRow(style: ContainerStyle, children: seq<WireNode>)

  datatype WireNode = WireNode(
    key: string, content: WireKind, layout: Layout, role: Role, name: Option<string>, description: Option<string>,
    focusable: bool, disabled: bool, hidden: bool, opacity: real, itemIndex: Option<nat>,
    virtualization: Option<ListStyle>, command: Option<string>, cursor: Option<Cursor>, sharedId: Option<string>)

  // ---------------------------------------------------------------------
  // A node as data
  // ---------------------------------------------------------------------

  function Virtualization(content: Content): Option<ListStyle> {
    match content
    case Column(_, _, list, _) => list
    case Row(_, list, _) => list
    case _ => None
  }

  function FromNode(keys: Keys, node: Node): WireNode
    decreases node, 2
  {
    WireNode(
      KeyOf(keys, node.id), FromContent(keys, node.content), node.layout, node.info.role, node.info.name,
      node.info.description, node.info.focusable, node.disabled, node.hidden, node.opacity, node.itemIndex,
      Virtualization(node.content), node.command, node.cursor,
      if node.sharedId.Some? then Some(KeyOf(keys, node.sharedId.value)) else None)
  }

  function FromContent(keys: Keys, content: Content): WireKind
    decreases content, 1
  {
    match content
    case Label(text) => WireLabel(text)
    case Button(text) => WireButton(text)
    case TextInput(value) => WireTextInput(value)
    case TabBar(labels, selected) => WireTabBar(labels, selected)
    case ControlNode(control) => WireControl(control)
    case Canvas(_) => WireCanvas
    case Surface(None) => WireSurface
    case Surface(Some(kind)) => WireForeign(kind)
    case Column(style, grid, _, children) => WireColumn(style, grid, FromNodes(keys, children))
    case Row(style, _, children) => WireRow(style, FromNodes(keys, children))
  }

  function FromNodes(keys: Keys, nodes: seq<Node>): seq<WireNode>
    decreases nodes, 0
  {
    if nodes == [] then [] else [FromNode(keys, nodes[0])] + FromNodes(keys, nodes[1..])
  }

  // ---------------------------------------------------------------------
  // Data as a node
  // ---------------------------------------------------------------------

  /** The names interned so far: node keys, and the command names kept for good. */
  datatype Names = Names(keys: Keys, commands: set<string>)

  const MOST_COMMANDS: nat := 4096
  const TOO_MANY := "rustnative.wire.too-many-commands"

  /** The command id for a name read off the wire: a new name is kept, unless too many are. */
  function Command(commands: set<string>, name: string): (string, set<string>) {
    if name in commands then (name, commands)
    else if |commands| > MOST_COMMANDS then (TOO_MANY, commands)
    else (name, commands + {name})
  }

  function NamedCommand(commands: set<string>, name: Option<string>): (Option<string>, set<string>) {
    match name
    case None => (None, commands)
    case Some(name) => var (id, commands) := Command(commands, name); (Some(id), commands)
  }

  /** The metadata a node kind's constructor starts with. */
  function OwnInfo(content: Content): Info {
    match content
    case Label(_) => Info(LabelRole, None, None, false, 0)
    case Button(_) => Info(ButtonRole, None, None, true, 0)
    case TextInput(_) => Info(TextInputRole, None, None, true, 0)
    case TabBar(_, _) => Info(TabListRole, None, None, true, 0)
    case ControlNode(control) => Info(control.role, control.name, None, control.focusable, control.state)
    case Canvas(_) => Info(CanvasRole, None, None, false, 0)
    case Surface(_) => Info(GroupRole, None, None, false, 0)
    case Column(_, _, _, _) => Info(GroupRole, None, None, false, 0)
    case Row(_, _, _) => Info(GroupRole, None, None, false, 0)
  }

  function LastIndex(labels: seq<string>): nat {
    if labels == [] then 0 else |labels| - 1
  }

  function VirtualList(list: ListStyle, children: seq<Node>): Content {
    match list.axis
    case Vertical => Column(LIST_STYLE, None, Some(list), children)
    case Horizontal => Row(LIST_STYLE, Some(list), children)
  }

  const EPSILON: real := 1.0 / 8388608.0

  function Clamp(opacity: real): real {
    if opacity < 0.0 then 0.0 else if opacity > 1.0 then 1.0 else opacity
  }

  /** Whether an opacity is set on a node at all, rather than left at one. */
  predicate SetsOpacity(opacity: real) {
    opacity - 1.0 > EPSILON || 1.0 - opacity > EPSILON
  }

  /** How many keys a tree carries. */
  function KeyCount(w: WireNode): nat
    decreases w, 1
  {
    var below :=
      match w.content
      case WireColumn(_, _, children) => KeyCounts(children)
      case WireRow(_, children) => KeyCounts(children)
      case _ => 0;
    1 + below + if w.sharedId.Some? then 1 else 0
  }

  function KeyCounts(ws: seq<WireNode>): nat
    decreases ws, 0
  {
    if ws == [] then 0 else KeyCount(ws[0]) + KeyCounts(ws[1..])
  }

  /** The command of one node. */
  function OwnCommand(w: WireNode): seq<string> {
    match w.command
    case Some(name) => [name]
    case None => []
  }

  /** The command names a tree carries, in the order they are read. */
  function CommandNames(w: WireNode): seq<string>
    decreases w, 1
  {
    CommandsBelow(w) + OwnCommand(w)
  }

  /** Those its children carry, which are read first. */
  function CommandsBelow(w: WireNode): seq<string>
    decreases w, 0
  {
    match w.content
    case WireColumn(_, _, children) => CommandNamesOf(children)
    case WireRow(_, children) => CommandNamesOf(children)
    case _ => []
  }

  function CommandNamesOf(ws: seq<WireNode>): seq<string>
    decreases ws, 0
  {
    if ws == [] then [] else CommandNames(ws[0]) + CommandNamesOf(ws[1..])
  }

  /** What the wire content's constructor makes of its already built children. */
  function Built(w: WireNode, children: seq<Node>): Content {
    match w.content
    case WireLabel(text) => Label(text)
    case WireButton(text) => Button(text)
    case WireTextInput(value) => TextInput(value)
    case WireTabBar(labels, selected) =>
      TabBar(labels, if selected < LastIndex(labels) then selected else LastIndex(labels))
    case WireControl(control) => ControlNode(control)
    case WireCanvas => Canvas(Drawing([]))
    case WireSurface => Surface(None)
    case WireForeign(foreign) => Surface(Some(foreign))
    case WireColumn(style, grid, _) =>
      (match (grid, w.virtualization)
       case (Some(grid), _) => Column(GRID_STYLE, Some(grid), None, children)
       case (None, Some(list)) => VirtualList(list, children)
       case (None, None) => Column(style, None, None, children))
    case WireRow(style, _) =>
      (match w.virtualization
       case Some(list) => VirtualList(list, children)
       case None => Row(style, None, children))
  }

  /** The node `w` describes. An exhausted key interner panics, so there must be room for
      every key `w` carries. */
  function IntoNode(w: WireNode, names: Names): (r: (Node, Names))
    requires |names.keys| + KeyCount(w) <= EXHAUSTED
    ensures |r.1.keys| <= |names.keys| + KeyCount(w)
    decreases w, 2
  {
    var id: NodeId := Find(Interned(names.keys, w.key), w.key);
    var (children, names) := IntoChildren(w, names);
    Modified(w, Constructed(w, id, children), names)
  }

  /** What the constructor makes of a key and children. */
  function Constructed(w: WireNode, id: NodeId, children: seq<Node>): Node {
    var content := Built(w, children);
    Node(id, content, w.layout, OwnInfo(content), false, false, 1.0, None, None, None, None)
  }

  /** The constructor interns its key, then its children are built. */
  function IntoChildren(w: WireNode, names: Names): (r: (seq<Node>, Names))
    requires |names.keys| + KeyCount(w) <= EXHAUSTED
    ensures |r.1.keys| + (if w.sharedId.Some? then 1 else 0) <= |names.keys| + KeyCount(w)
    decreases w, 1
  {
    var keyed := names.(keys := Interned(names.keys, w.key));
    match w.content
    case WireColumn(_, _, children) => IntoNodes(children, keyed)
    case WireRow(_, children) => IntoNodes(children, keyed)
    case _ => ([], keyed)
  }

  /** The constructed node with everything else `w` says of it. */
  function Modified(w: WireNode, node: Node, names: Names): (r: (Node, Names))
    requires |names.keys| < EXHAUSTED || w.sharedId.None?
  {
    // The constructor already describes what the node is; only a description that differs replaces it.
    var same := node.info.role == w.role && node.info.name == w.name && node.info.description == w.description
                && node.info.focusable == w.focusable;
    var node := if same then node else node.(info := Info(w.role, w.name, w.description, w.focusable, 0));
    var node := node.(disabled := w.disabled, hidden := w.hidden);
    var node := if SetsOpacity(w.opacity) then node.(opacity := Clamp(w.opacity)) else node;
    var node := node.(itemIndex := w.itemIndex);
    var (command, commands) := NamedCommand(names.commands, w.command);
    var node := node.(command := command, cursor := w.cursor);
    if w.sharedId.Some? then
      var keys := Interned(names.keys, w.sharedId.value);
      var sharedId: NodeId := Find(keys, w.sharedId.value);
      (node.(sharedId := Some(sharedId)), Names(keys, commands))
    else (node, names.(commands := commands))
  }

  function IntoNodes(ws: seq<WireNode>, names: Names): (r: (seq<Node>, Names))
    requires |names.keys| + KeyCounts(ws) <= EXHAUSTED
    ensures |r.1.keys| <= |names.keys| + KeyCounts(ws)
    decreases ws, 0
  {
    if ws == [] then ([], names)
    else
      var (first, names) := IntoNode(ws[0], names);
      var (rest, names) := IntoNodes(ws[1..], names);
      ([first] + rest, names)
  }

  // ---------------------------------------------------------------------
  // Round trip
  // ---------------------------------------------------------------------

  /** The rest of a control's state, as far as the wire has it: lost once anything the wire does carry of the
      metadata was changed. */
  function StateOnWire(w: WireNode): int {
    match w.content
    case WireControl(control) =>
      if w.role == control.role && w.name == control.name && w.description == None && w.focusable == control.focusable
      then control.state
      else 0
    case _ => 0
  }

  /** A node's accessibility metadata comes back but for the state: a control's own when nothing else of its
      metadata was changed, and otherwise none. */
  lemma InfoSurvives(keys: Keys, node: Node, names: Names)
    requires |names.keys| + KeyCount(FromNode(keys, node)) <= EXHAUSTED
    ensures var back := IntoNode(FromNode(keys, node), names).0.info;
      && back == node.info.(state := StateOnWire(FromNode(keys, node)))
      && (back == node.info <==> node.info.state == StateOnWire(FromNode(keys, node)))
  {
    var w := FromNode(keys, node);
    var id: NodeId := Find(Interned(names.keys, w.key), w.key);
    var (children, more) := IntoChildren(w, names);
    InfoOnWire(w, Constructed(w, id, children), more);
  }

  lemma InfoOnWire(w: WireNode, node: Node, names: Names)
    requires (|names.keys| < EXHAUSTED || w.sharedId.None?) && node.info == OwnInfo(node.content)
    requires exists children :: node.content == Built(w, children)
    ensures Modified(w, node, names).0.info == Info(w.role, w.name, w.description, w.focusable, StateOnWire(w))
  {
  }

  /** What survives the way back: a grid or virtual list carries its constructor's style and
      axis, nothing else is virtual, the selected tab is one, and the opacity is in range and
      not so close to one that it is taken for one. */
  ghost predicate Faithful(w: WireNode)
    decreases w, 2
  {
    OpacityKept(w.opacity) && ContentFaithful(w)
  }

  /** One of the tabs, or the first of none. */
  predicate IsTab(labels: seq<string>, selected: nat) {
    selected < |labels| || selected == 0
  }

  predicate OpacityKept(opacity: real) {
    0.0 <= opacity <= 1.0 && (opacity == 1.0 || 1.0 - opacity > EPSILON)
  }

  ghost predicate ContentFaithful(w: WireNode)
    decreases w, 1
  {
    match w.content
       case WireTabBar(labels, selected) => IsTab(labels, selected) && w.virtualization.None?
       case WireColumn(style, Some(_), children) =>
         style == GRID_STYLE && w.virtualization.None? && AllFaithful(children)
       case WireColumn(style, None, children) =>
         (w.virtualization.Some? ==> style == LIST_STYLE && w.virtualization.value.axis == Vertical)
         && AllFaithful(children)
       case WireRow(style, children) =>
         (w.virtualization.Some? ==> style == LIST_STYLE && w.virtualization.value.axis == Horizontal)
         && AllFaithful(children)
       case _ => w.virtualization.None?
  }

  ghost predicate AllFaithful(ws: seq<WireNode>)
    decreases ws, 0
  {
    ws == [] || (Faithful(ws[0]) && AllFaithful(ws[1..]))
  }

  // ---------------------------------------------------------------------
  // Command names
  // ---------------------------------------------------------------------

  /** The command names kept once `names` were read. */
  function KeptAfter(commands: set<string>, names: seq<string>): set<string>
    decreases |names|
  {
    if names == [] then commands else KeptAfter(Command(commands, names[0]).1, names[1..])
  }

  /** Every name is read as itself. */
  predicate AllRead(commands: set<string>, names: seq<string>)
    decreases |names|
  {
    names == [] ||
    (Command(commands, names[0]).0 == names[0] && AllRead(Command(commands, names[0]).1, names[1..]))
  }

  lemma {:induction false} ReadInTurn(commands: set<string>, a: seq<string>, b: seq<string>)
    ensures KeptAfter(commands, a + b) == KeptAfter(KeptAfter(commands, a), b)
    ensures AllRead(commands, a + b) <==> AllRead(commands, a) && AllRead(KeptAfter(commands, a), b)
    decreases |a|
  {
    if a == [] {
      assert a + b == b;
    } else {
      assert (a + b)[1..] == a[1..] + b;
      ReadInTurn(Command(commands, a[0]).1, a[1..], b);
    }
  }

  ghost function NameSet(names: seq<string>): set<string> {
    set name | name in names
  }

  /** Unless the name that stands for too many is itself one of them, all are read as themselves
      exactly when they are kept already or there is room for all that are not. */
  lemma {:induction false} AllReadIffRoom(commands: set<string>, names: seq<string>)
    requires TOO_MANY !in names
    ensures AllRead(commands, names)
       <==> NameSet(names) <= commands || |commands + NameSet(names)| <= MOST_COMMANDS + 1
    decreases |names|
  {
    if names == [] {
      assert NameSet(names) == {};
    } else {
      var name, rest := names[0], names[1..];
      var next := Command(commands, name).1;
      assert names == [name] + rest;
      assert NameSet(names) == {name} + NameSet(rest);
      AllReadIffRoom(next, rest);
      if name in commands {
        assert commands + NameSet(names) == next + NameSet(rest);
      } else if |commands| > MOST_COMMANDS {
        More(commands, commands + NameSet(names), name);
      } else {
        assert commands + NameSet(names) == next + NameSet(rest);
        if NameSet(rest) <= next {
          assert commands + NameSet(names) == commands + {name};
        }
      }
    }
  }

  lemma More<T>(a: set<T>, b: set<T>, x: T)
    requires a <= b && x in b && x !in a
    ensures |b| > |a|
  {
    assert |b - a| > 0 by {
      assert x in b - a;
    }
    assert b == a + (b - a);
  }

  /** An interned key, read back by any later interner, is itself. */
  lemma KeyReadsBack(keys: Keys, key: string, later: Keys)
    requires Distinct(keys) && |Interned(keys, key)| <= EXHAUSTED && Interned(keys, key) <= later
    ensures var id: NodeId := Find(Interned(keys, key), key); KeyOf(later, id) == key
  {
    InternedKeeps(keys, key);
    var id: NodeId := Find(Interned(keys, key), key);
    assert id < WORD;
    Halves(0, id);
    assert later[id] == key;
  }

  /** Building a tree only adds names, the commands read among them. */
  ghost predicate Grew(before: Names, after: Names, read: seq<string>) {
    && Distinct(after.keys) && before.keys <= after.keys
    && after.commands == KeptAfter(before.commands, read)
  }

  lemma ModifiedGrows(w: WireNode, node: Node, names: Names)
    requires Distinct(names.keys) && (|names.keys| < EXHAUSTED || w.sharedId.None?)
    ensures Grew(names, Modified(w, node, names).1, OwnCommand(w))
  {
    if w.sharedId.Some? {
      InternedKeeps(names.keys, w.sharedId.value);
    }
  }

  lemma {:induction false} IntoChildrenGrow(w: WireNode, names: Names)
    requires |names.keys| + KeyCount(w) <= EXHAUSTED && Distinct(names.keys)
    ensures Grew(names, IntoChildren(w, names).1, CommandsBelow(w))
    ensures Interned(names.keys, w.key) <= IntoChildren(w, names).1.keys
    decreases w, 1
  {
    InternedKeeps(names.keys, w.key);
    var keyed := names.(keys := Interned(names.keys, w.key));
    match w.content {
      case WireColumn(_, _, children) => IntoNodesGrow(children, keyed);
      case WireRow(_, children) => IntoNodesGrow(children, keyed);
      case _ =>
    }
  }

  lemma {:induction false} IntoNodeGrows(w: WireNode, names: Names)
    requires |names.keys| + KeyCount(w) <= EXHAUSTED && Distinct(names.keys)
    ensures Grew(names, IntoNode(w, names).1, CommandNames(w))
    decreases w, 2
  {
    IntoChildrenGrow(w, names);
    var id: NodeId := Find(Interned(names.keys, w.key), w.key);
    var (children, after) := IntoChildren(w, names);
    ModifiedGrows(w, Constructed(w, id, children), after);
    ReadInTurn(names.commands, CommandsBelow(w), OwnCommand(w));
  }

  lemma {:induction false} IntoNodesGrow(ws: seq<WireNode>, names: Names)
    requires |names.keys| + KeyCounts(ws) <= EXHAUSTED && Distinct(names.keys)
    ensures Grew(names, IntoNodes(ws, names).1, CommandNamesOf(ws))
    decreases ws, 0
  {
    if ws != [] {
      IntoNodeGrows(ws[0], names);
      IntoNodesGrow(ws[1..], IntoNode(ws[0], names).1);
      ReadInTurn(names.commands, CommandNames(ws[0]), CommandNamesOf(ws[1..]));
    }
  }

  /** The children survive exactly when they are all faithful and their commands are read. */
  ghost predicate ChildrenRoundTrip(w: WireNode, children: seq<Node>, later: Keys, commands: set<string>) {
    match w.content
    case WireColumn(_, _, ws) =>
      FromNodes(later, children) == ws <==> AllFaithful(ws) && AllRead(commands, CommandNamesOf(ws))
    case WireRow(_, ws) =>
      FromNodes(later, children) == ws <==> AllFaithful(ws) && AllRead(commands, CommandNamesOf(ws))
    case _ => true
  }

  /** Kind and content survive exactly when they are faithful and the commands below are read. */
  lemma ContentRoundTrips(w: WireNode, children: seq<Node>, later: Keys, commands: set<string>)
    requires ChildrenRoundTrip(w, children, later, commands)
    ensures var content := Built(w, children);
      FromContent(later, content) == w.content && Virtualization(content) == w.virtualization
      <==> ContentFaithful(w) && AllRead(commands, CommandsBelow(w))
  {
  }

  /** Everything but kind, content, opacity and command survives the modifiers. */
  lemma ModifiedReads(w: WireNode, node: Node, names: Names, later: Keys)
    requires Distinct(names.keys) && (|names.keys| < EXHAUSTED || w.sharedId.None?)
    requires Modified(w, node, names).1.keys <= later
    requires node.opacity == 1.0 && node.sharedId.None? && node.layout == w.layout && KeyOf(later, node.id) == w.key
    ensures FromNode(later, Modified(w, node, names).0) == w.(
      content := FromContent(later, node.content),
      virtualization := Virtualization(node.content),
      opacity := if SetsOpacity(w.opacity) then Clamp(w.opacity) else 1.0,
      command := NamedCommand(names.commands, w.command).0)
  {
    if w.sharedId.Some? {
      KeyReadsBack(names.keys, w.sharedId.value, later);
    }
  }

  /** Data becomes a node and comes back as it was exactly when it is faithful and its command
      names are read: for every tree on the wire, any names known before, and any since. */
  lemma {:induction false} RoundTrips(w: WireNode, names: Names, later: Keys)
    requires |names.keys| + KeyCount(w) <= EXHAUSTED && Distinct(names.keys)
    requires IntoNode(w, names).1.keys <= later
    ensures FromNode(later, IntoNode(w, names).0) == w
       <==> Faithful(w) && AllRead(names.commands, CommandNames(w))
    decreases w, 2
  {
    var id: NodeId := Find(Interned(names.keys, w.key), w.key);
    var (children, after) := IntoChildren(w, names);
    var node := Constructed(w, id, children);
    IntoChildrenGrow(w, names);
    ModifiedGrows(w, node, after);
    ChildrenComeBack(w, names, later);
    KeyReadsBack(names.keys, w.key, later);
    ModifiedReads(w, node, after, later);
    ContentRoundTrips(w, children, later, names.commands);
    ReadInTurn(names.commands, CommandsBelow(w), OwnCommand(w));
    OwnRead(after.commands, w);
  }

  lemma OwnRead(commands: set<string>, w: WireNode)
    ensures NamedCommand(commands, w.command).0 == w.command <==> AllRead(commands, OwnCommand(w))
  {
  }

  lemma {:induction false} ChildrenComeBack(w: WireNode, names: Names, later: Keys)
    requires |names.keys| + KeyCount(w) <= EXHAUSTED && Distinct(names.keys)
    requires IntoChildren(w, names).1.keys <= later
    ensures ChildrenRoundTrip(w, IntoChildren(w, names).0, later, names.commands)
    decreases w, 1
  {
    InternedKeeps(names.keys, w.key);
    var keyed := names.(keys := Interned(names.keys, w.key));
    match w.content {
      case WireColumn(_, _, ws) => AllRoundTrip(ws, keyed, later);
      case WireRow(_, ws) => AllRoundTrip(ws, keyed, later);
      case _ =>
    }
  }

  lemma {:induction false} AllRoundTrip(ws: seq<WireNode>, names: Names, later: Keys)
    requires |names.keys| + KeyCounts(ws) <= EXHAUSTED && Distinct(names.keys)
    requires IntoNodes(ws, names).1.keys <= later
    ensures FromNodes(later, IntoNodes(ws, names).0) == ws
       <==> AllFaithful(ws) && AllRead(names.commands, CommandNamesOf(ws))
    decreases ws, 0
  {
    if ws != [] {
      var (first, between) := IntoNode(ws[0], names);
      var (rest, after) := IntoNodes(ws[1..], between);
      IntoNodeGrows(ws[0], names);
      IntoNodesGrow(ws[1..], between);
      RoundTrips(ws[0], names, later);
      AllRoundTrip(ws[1..], between, later);
      ReadInTurn(names.commands, CommandNames(ws[0]), CommandNamesOf(ws[1..]));
      assert ([first] + rest)[1..] == rest;
      assert FromNodes(later, [first] + rest) == [FromNode(later, first)] + FromNodes(later, rest);
      assert ws == [ws[0]] + ws[1..];
    }
  }

  // ---------------------------------------------------------------------
  // Trees built by the constructors
  // ---------------------------------------------------------------------

  /** What the constructors and modifiers of nodes see to: tabs select one of theirs, an
      opacity is clamped, and a virtual list is a container along its own axis, never a grid. */
  ghost predicate WellBuilt(node: Node)
    decreases node, 1
  {
    && 0.0 <= node.opacity <= 1.0
    && match node.content
       case TabBar(labels, selected) => IsTab(labels, selected)
       case Column(_, grid, list, children) =>
         (list.Some? ==> grid.None? && list.value.axis == Vertical) && AllWellBuilt(children)
       case Row(_, list, children) => (list.Some? ==> list.value.axis == Horizontal) && AllWellBuilt(children)
       case _ => true
  }

  ghost predicate AllWellBuilt(nodes: seq<Node>)
    decreases nodes, 0
  {
    nodes == [] || (WellBuilt(nodes[0]) && AllWellBuilt(nodes[1..]))
  }

  /** Grids and virtual lists keep the style their constructor gave them, and no opacity is
      within the epsilon of one without being one. */
  ghost predicate Plain(node: Node)
    decreases node, 1
  {
    && (node.opacity == 1.0 || 1.0 - node.opacity > EPSILON)
    && match node.content
       case Column(style, grid, list, children) =>
         && (grid.Some? ==> style == GRID_STYLE)
         && (list.Some? ==> style == LIST_STYLE)
         && AllPlain(children)
       case Row(style, list, children) => (list.Some? ==> style == LIST_STYLE) && AllPlain(children)
       case _ => true
  }

  ghost predicate AllPlain(nodes: seq<Node>)
    decreases nodes, 0
  {
    nodes == [] || (Plain(nodes[0]) && AllPlain(nodes[1..]))
  }

  lemma {:induction false} SentIsFaithful(keys: Keys, node: Node)
    requires WellBuilt(node)
    ensures Faithful(FromNode(keys, node)) <==> Plain(node)
    decreases node, 1
  {
    match node.content {
      case Column(_, _, _, children) => AllSentFaithful(keys, children);
      case Row(_, _, children) => AllSentFaithful(keys, children);
      case _ =>
    }
  }

  lemma {:induction false} AllSentFaithful(keys: Keys, nodes: seq<Node>)
    requires AllWellBuilt(nodes)
    ensures AllFaithful(FromNodes(keys, nodes)) <==> AllPlain(nodes)
    decreases nodes, 0
  {
    if nodes != [] {
      SentIsFaithful(keys, nodes[0]);
      AllSentFaithful(keys, nodes[1..]);
      assert ([FromNode(keys, nodes[0])] + FromNodes(keys, nodes[1..]))[1..] == FromNodes(keys, nodes[1..]);
    }
  }

  function Distance(a: real, b: real): real {
    if a < b then b - a else a - b
  }

  function Apart(a: nat, b: nat): nat {
    if a < b then b - a else a - b
  }

  /** What does not survive becomes the nearest thing that does: a tab beyond the last is the last, and an
      opacity out of range its nearer end, or one when it is too close to one to tell. */
  lemma ClampedToNearest(w: WireNode, children: seq<Node>, node: Node, names: Names)
    requires |names.keys| < EXHAUSTED || w.sharedId.None?
    requires node.opacity == 1.0
    ensures w.content.WireTabBar? ==>
      var tabs := Built(w, children);
      && tabs.TabBar? && tabs.labels == w.content.labels && IsTab(tabs.labels, tabs.selected)
      && forall tab: nat :: IsTab(tabs.labels, tab) ==>
           Apart(tabs.selected, w.content.selected) <= Apart(tab, w.content.selected)
    ensures var opacity := Modified(w, node, names).0.opacity;
      && 0.0 <= opacity <= 1.0
      && (Distance(w.opacity, 1.0) > EPSILON ==>
            forall o :: 0.0 <= o <= 1.0 ==> Distance(opacity, w.opacity) <= Distance(o, w.opacity))
      && (Distance(w.opacity, 1.0) <= EPSILON ==> opacity == 1.0)
  {
  }

  /** Whatever is read off the wire, what it becomes is well built and plain: sent once more, it is faithful. */
  lemma {:induction false} OneTripSettles(w: WireNode, names: Names)
    requires |names.keys| + KeyCount(w) <= EXHAUSTED
    ensures WellBuilt(IntoNode(w, names).0) && Plain(IntoNode(w, names).0)
    decreases w, 1
  {
    match w.content {
      case WireColumn(_, _, children) => AllSettle(children, names.(keys := Interned(names.keys, w.key)));
      case WireRow(_, children) => AllSettle(children, names.(keys := Interned(names.keys, w.key)));
      case _ =>
    }
    var id: NodeId := Find(Interned(names.keys, w.key), w.key);
    var (children, after) := IntoChildren(w, names);
    Settles(w, id, children, after);
  }

  lemma Settles(w: WireNode, id: NodeId, children: seq<Node>, names: Names)
    requires |names.keys| < EXHAUSTED || w.sharedId.None?
    requires AllWellBuilt(children) && AllPlain(children)
    ensures var node := Modified(w, Constructed(w, id, children), names).0; WellBuilt(node) && Plain(node)
  {
    var built := Constructed(w, id, children);
    BuiltWell(w, id, children);
    ModifiedSettles(w, built, names);
  }

  lemma BuiltWell(w: WireNode, id: NodeId, children: seq<Node>)
    requires AllWellBuilt(children) && AllPlain(children)
    ensures var built := Constructed(w, id, children); WellBuilt(built) && Plain(built) && built.opacity == 1.0
  {
  }

  lemma ModifiedSettles(w: WireNode, node: Node, names: Names)
    requires |names.keys| < EXHAUSTED || w.sharedId.None?
    requires WellBuilt(node) && Plain(node) && node.opacity == 1.0
    ensures WellBuilt(Modified(w, node, names).0) && Plain(Modified(w, node, names).0)
  {
    var modified := Modified(w, node, names).0;
    assert modified.content == node.content;
    assert 0.0 <= modified.opacity <= 1.0 && (modified.opacity == 1.0 || 1.0 - modified.opacity > EPSILON);
  }

  lemma {:induction false} AllSettle(ws: seq<WireNode>, names: Names)
    requires |names.keys| + KeyCounts(ws) <= EXHAUSTED
    ensures AllWellBuilt(IntoNodes(ws, names).0) && AllPlain(IntoNodes(ws, names).0)
    decreases ws, 0
  {
    if ws != [] {
      OneTripSettles(ws[0], names);
      var (first, between) := IntoNode(ws[0], names);
      AllSettle(ws[1..], between);
      assert ([first] + IntoNodes(ws[1..], between).0)[1..] == IntoNodes(ws[1..], between).0;
    }
  }

  /** A tree sent by one side, rebuilt by the other and sent back is the same data exactly when the
      tree is plain and its command names are read: when the other side keeps them already, or has
      room for those it does not, unless one of them is the name for too many. */
  lemma SentTreesComeBack(sender: Keys, node: Node, names: Names, later: Keys)
    requires WellBuilt(node)
    requires var w := FromNode(sender, node);
      && |names.keys| + KeyCount(w) <= EXHAUSTED && Distinct(names.keys)
      && IntoNode(w, names).1.keys <= later
    ensures var w := FromNode(sender, node);
      FromNode(later, IntoNode(w, names).0) == w <==> Plain(node) && AllRead(names.commands, CommandNames(w))
    ensures var read := CommandNames(FromNode(sender, node));
      TOO_MANY !in read ==>
        (AllRead(names.commands, read)
         <==> NameSet(read) <= names.commands || |names.commands + NameSet(read)| <= MOST_COMMANDS + 1)
  {
    var w := FromNode(sender, node);
    SentIsFaithful(sender, node);
    RoundTrips(w, names, later);
    if TOO_MANY !in CommandNames(w) {
      AllReadIffRoom(names.commands, CommandNames(w));
    }
  }
}
