/** A document and its file (`DocumentController`, crates/rustnative-data/src/document.rs). */
module Documents {
  import opened Wrappers
  import opened Histories

  type Path = string

  type Bytes = seq<bv8>

  type Files = map<Path, Bytes>

  /** How a document's content is read from a file's bytes and written to them. */
  datatype Format<!D> = Format(read: Bytes -> Result<D, string>, write: D -> Bytes)

  ghost predicate ReadsBack<D(!new)>(format: Format<D>) {
    forall d :: format.read(format.write(d)) == Ok(d)
  }

  datatype DocumentError = NeedsPath | Io | NotReadable(reason: string)

  datatype Doc<D> = Doc(line: Line<D>, saved: Option<D>, path: Option<Path>,
                        autosaveAfter: Option<nat>, lastEdit: Option<nat>)

  ghost predicate Valid<D>(doc: Doc<D>) {
    Sound(doc.line)
  }

  function Content<D>(doc: Doc<D>): D
    requires doc.line.at < |doc.line.items|
  {
    Present(doc.line)
  }

  predicate IsDirty<D(==)>(doc: Doc<D>)
    requires doc.line.at < |doc.line.items|
  {
    doc.saved != Some(Content(doc))
  }

  /** What the file system does with a save: a write that fails may leave anything, or nothing,
      beside the target; when the rename fails what was written there is removed if it can be. */
  datatype Outcome = Written | WriteFailed(left: Option<Bytes>) | RenameFailed(removed: bool)

  datatype Act<D> =
    | Edit(content: D, now: nat)
    | UndoOne
    | RedoOne
    | SaveAs(path: Path, outcome: Outcome)
    | Save(outcome: Outcome)
    | Revert(readable: bool)
    | Autosave(now: nat, outcome: Outcome)

  datatype World<D> = World(doc: Doc<D>, files: Files)

  // ---------------------------------------------------------------------
  // What each action does
  // ---------------------------------------------------------------------

  const HISTORY_LIMIT: nat := 100

  /** A document never saved, saving itself after `autosaveAfter` without an edit, if at all. */
  function Untitled<D>(content: D, autosaveAfter: Option<nat>): Doc<D> {
    Doc(New(content, HISTORY_LIMIT), None, None, autosaveAfter, None)
  }

  function Opened<D>(format: Format<D>, files: Files, path: Path, autosaveAfter: Option<nat>)
    : Result<Doc<D>, DocumentError>
  {
    if path !in files then Err(Io)
    else
      match format.read(files[path])
      case Err(reason) => Err(NotReadable(reason))
      case Ok(content) => Ok(Untitled(content, autosaveAfter).(saved := Some(content), path := Some(path)))
  }

  /** How a document comes to be: made, or opened from its file. */
  datatype Beginning<D> = Made(content: D) | FromFile(path: Path)

  function Begun<D>(format: Format<D>, files: Files, beginning: Beginning<D>, autosaveAfter: Option<nat>)
    : Result<Doc<D>, DocumentError>
  {
    match beginning
    case Made(content) => Ok(Untitled(content, autosaveAfter))
    case FromFile(path) => Opened(format, files, path, autosaveAfter)
  }

  /** Where the content is written before it is renamed over `path`. */
  function Staging(path: Path): Path {
    path + ".saving"
  }

  function SavedAs<D>(format: Format<D>, world: World<D>, path: Path, outcome: Outcome)
      : (World<D>, Result<bool, DocumentError>)
    requires world.doc.line.at < |world.doc.line.items|
  {
    var doc, files, bytes := world.doc, world.files, format.write(Content(world.doc));
    match outcome
    case WriteFailed(left) =>
      (World(doc, if left.Some? then files[Staging(path) := left.value] else files), Err(Io))
    case RenameFailed(removed) =>
      (World(doc, if removed then files - {Staging(path)} else files[Staging(path) := bytes]), Err(Io))
    case Written =>
      (World(doc.(saved := Some(Content(doc)), path := Some(path)), (files - {Staging(path)})[path := bytes]), Ok(true))
  }

  function Saved<D>(format: Format<D>, world: World<D>, outcome: Outcome): (World<D>, Result<bool, DocumentError>)
    requires world.doc.line.at < |world.doc.line.items|
  {
    match world.doc.path
    case None => (world, Err(NeedsPath))
    case Some(path) => SavedAs(format, world, path, outcome)
  }

  function Reverted<D>(format: Format<D>, world: World<D>, readable: bool): (World<D>, Result<bool, DocumentError>)
    requires world.doc.line.at < |world.doc.line.items|
  {
    match world.doc.path
    case None => (world, Err(NeedsPath))
    case Some(path) =>
      if !readable || path !in world.files then (world, Err(Io))
      else
        match format.read(world.files[path])
        case Err(reason) => (world, Err(NotReadable(reason)))
        case Ok(content) =>
          (World(world.doc.(line := Histories.Step(world.doc.line, Record(content)), saved := Some(content)),
                 world.files),
           Ok(true))
  }

  /** Whether an autosave at `now` would save. */
  predicate AutosaveDue<D(==)>(doc: Doc<D>, now: nat)
    requires doc.line.at < |doc.line.items|
  {
    && doc.autosaveAfter.Some? && doc.lastEdit.Some?
    && doc.path.Some? && IsDirty(doc)
    && (if now < doc.lastEdit.value then 0 else now - doc.lastEdit.value) >= doc.autosaveAfter.value
  }

  /** One action: the document and the files after it, and its answer. */
  function Perform<D(==)>(format: Format<D>, world: World<D>, act: Act<D>): (World<D>, Result<bool, DocumentError>)
    requires world.doc.line.at < |world.doc.line.items|
  {
    var doc := world.doc;
    match act
    case Edit(content, now) =>
      (world.(doc := doc.(line := Histories.Step(doc.line, Record(content)), lastEdit := Some(now))), Ok(true))
    case UndoOne => (world.(doc := doc.(line := Histories.Step(doc.line, Histories.Undo))), Ok(doc.line.at > 0))
    case RedoOne =>
      (world.(doc := doc.(line := Histories.Step(doc.line, Histories.Redo))),
       Ok(doc.line.at + 1 < |doc.line.items|))
    case SaveAs(path, outcome) => SavedAs(format, world, path, outcome)
    case Save(outcome) => Saved(format, world, outcome)
    case Revert(readable) => Reverted(format, world, readable)
    case Autosave(now, outcome) => if AutosaveDue(doc, now) then Saved(format, world, outcome) else (world, Ok(false))
  }

  function Run<D(==)>(format: Format<D>, world: World<D>, acts: seq<Act<D>>): (after: World<D>)
    requires world.doc.line.at < |world.doc.line.items|
    ensures after.doc.line.at < |after.doc.line.items|
    decreases |acts|
  {
    if acts == [] then world else Run(format, Perform(format, world, acts[0]).0, acts[1..])
  }

  // ---------------------------------------------------------------------
  // Saving never leaves half a file
  // ---------------------------------------------------------------------

  /** Whatever the file system does, the file saved to is either as it was or the whole content,
      and no other file is touched but the one written beside it. A save that fails leaves the
      document as it was; one that succeeds leaves it clean. What is left beside the target is what the
      failure leaves, and nothing when it is removed or renamed. */
  lemma SavesAreAtomic<D>(format: Format<D>, world: World<D>, path: Path, outcome: Outcome)
    requires world.doc.line.at < |world.doc.line.items|
    ensures var (after, answer) := SavedAs(format, world, path, outcome);
      && (forall p :: p != path && p != Staging(path) ==>
            (p in after.files <==> p in world.files) && (p in world.files ==> after.files[p] == world.files[p]))
      && (answer.Ok? ==> path in after.files && after.files[path] == format.write(Content(world.doc))
                         && Staging(path) !in after.files
                         && after.doc.path == Some(path) && !IsDirty(after.doc) && after.doc.line == world.doc.line)
      && (answer.Err? ==> after.doc == world.doc
                          && (path in after.files <==> path in world.files)
                          && (path in world.files ==> after.files[path] == world.files[path]))
      && (answer == match outcome case Written => Ok(true) case _ => Err(Io))
      && match outcome
         case WriteFailed(None) => after.files == world.files
         case WriteFailed(Some(left)) => Staging(path) in after.files && after.files[Staging(path)] == left
         case RenameFailed(false) =>
           Staging(path) in after.files && after.files[Staging(path)] == format.write(Content(world.doc))
         case _ => Staging(path) !in after.files
  {
    assert |Staging(path)| == |path| + 7;
  }

  /** Opening needs a file that is there and reads; saving and reverting need a file, and reverting one that
      reads; otherwise nothing changes and the error says which. Saving is saving under the file's own name, and
      reverting records what is read as one step and as saved. */
  lemma WhatIsNeeded<D>(format: Format<D>, world: World<D>, path: Path, autosaveAfter: Option<nat>, outcome: Outcome,
                        readable: bool)
    requires Valid(world.doc)
    ensures path !in world.files ==> Opened(format, world.files, path, autosaveAfter) == Err(Io)
    ensures path in world.files ==>
      match format.read(world.files[path])
      case Err(reason) => Opened(format, world.files, path, autosaveAfter) == Err(NotReadable(reason))
      case Ok(content) =>
        var doc := Opened(format, world.files, path, autosaveAfter);
        doc.Ok? && Valid(doc.value) && Content(doc.value) == content && doc.value.saved == Some(content)
        && doc.value.path == Some(path)
    ensures world.doc.path == None ==>
      && Perform(format, world, Save(outcome)) == (world, Err(NeedsPath))
      && Perform(format, world, Revert(readable)) == (world, Err(NeedsPath))
    ensures world.doc.path == Some(path) ==>
      && Perform(format, world, Save(outcome)) == Perform(format, world, SaveAs(path, outcome))
      && (!readable || path !in world.files ==> Perform(format, world, Revert(readable)) == (world, Err(Io)))
      && (readable && path in world.files ==>
            match format.read(world.files[path])
            case Err(reason) => Perform(format, world, Revert(readable)) == (world, Err(NotReadable(reason)))
            case Ok(content) =>
              var (after, answer) := Perform(format, world, Revert(readable));
              && answer == Ok(true) && after.files == world.files && after.doc.saved == Some(content)
              && Content(after.doc) == content && Content(Perform(format, after, UndoOne).0.doc) == Content(world.doc))
  {
  }

  /** The document has a file exactly when something was saved, and the file holds it. */
  ghost predicate OnDisk<D>(format: Format<D>, world: World<D>) {
    && (world.doc.path.Some? <==> world.doc.saved.Some?)
    && (world.doc.path.Some? ==> Holds(format, world.files, world.doc.path.value, world.doc.saved.value))
  }

  ghost predicate Holds<D>(format: Format<D>, files: Files, path: Path, content: D) {
    path in files && format.read(files[path]) == Ok(content)
  }

  /** A save whose staging file would be the document's own file. */
  ghost predicate StagesOverOwnFile<D>(doc: Doc<D>, act: Act<D>) {
    act.SaveAs? && doc.path == Some(Staging(act.path))
  }

  /** What such a save may end in and leave the document's file holding what was last saved: it
      succeeds, or its write touches nothing or leaves just that, or its rename fails with nothing
      to save and the staging file is left. */
  ghost predicate Harmless<D>(format: Format<D>, doc: Doc<D>, outcome: Outcome)
    requires doc.line.at < |doc.line.items|
  {
    match outcome
    case Written => true
    case WriteFailed(None) => true
    case WriteFailed(Some(left)) => doc.saved.Some? && format.read(left) == Ok(doc.saved.value)
    case RenameFailed(removed) => !removed && !IsDirty(doc)
  }

  ghost predicate LosesOwnFile<D>(format: Format<D>, doc: Doc<D>, act: Act<D>)
    requires doc.line.at < |doc.line.items|
  {
    StagesOverOwnFile(doc, act) && !Harmless(format, doc, act.outcome)
  }

  /** Whatever a document does, and whatever the file system makes of it, its file goes on holding
      what was last saved exactly unless a save staged over that file does harm. */
  lemma OwnFileLostIff<D(!new)>(format: Format<D>, world: World<D>, act: Act<D>)
    requires ReadsBack(format)
    requires Valid(world.doc) && OnDisk(format, world)
    ensures Valid(Perform(format, world, act).0.doc)
    ensures OnDisk(format, Perform(format, world, act).0) <==> !LosesOwnFile(format, world.doc, act)
  {
    match act
    case SaveAs(path, outcome) => SaveAsOnDiskIff(format, world, path, outcome);
    case Save(outcome) => SaveKeepsOnDisk(format, world, outcome);
    case Autosave(_, outcome) => SaveKeepsOnDisk(format, world, outcome);
    case _ =>
  }

  lemma SaveKeepsOnDisk<D(!new)>(format: Format<D>, world: World<D>, outcome: Outcome)
    requires ReadsBack(format)
    requires Valid(world.doc) && OnDisk(format, world)
    ensures OnDisk(format, Saved(format, world, outcome).0)
  {
    if world.doc.path.Some? {
      assert |Staging(world.doc.path.value)| != |world.doc.path.value|;
      SaveAsOnDiskIff(format, world, world.doc.path.value, outcome);
    }
  }

  lemma SaveAsOnDiskIff<D(!new)>(format: Format<D>, world: World<D>, path: Path, outcome: Outcome)
    requires ReadsBack(format)
    requires Valid(world.doc) && OnDisk(format, world)
    ensures OnDisk(format, SavedAs(format, world, path, outcome).0)
       <==> !(world.doc.path == Some(Staging(path)) && !Harmless(format, world.doc, outcome))
  {
    var content := Content(world.doc);
    assert |Staging(path)| == |path| + 7;
    assert format.read(format.write(content)) == Ok(content);
  }

  /** No save on the way does harm to the document's own file. */
  ghost predicate NeverLosesOwnFile<D>(format: Format<D>, world: World<D>, acts: seq<Act<D>>)
    requires world.doc.line.at < |world.doc.line.items|
    decreases |acts|
  {
    acts != [] ==>
      && !LosesOwnFile(format, world.doc, acts[0])
      && NeverLosesOwnFile(format, Perform(format, world, acts[0]).0, acts[1..])
  }

  ghost predicate OnDiskThroughout<D>(format: Format<D>, world: World<D>, acts: seq<Act<D>>)
    requires world.doc.line.at < |world.doc.line.items|
    decreases |acts|
  {
    && OnDisk(format, world)
    && (acts != [] ==> OnDiskThroughout(format, Perform(format, world, acts[0]).0, acts[1..]))
  }

  lemma {:induction false} RunOnDiskIff<D(!new)>(format: Format<D>, world: World<D>, acts: seq<Act<D>>)
    requires ReadsBack(format)
    requires Valid(world.doc) && OnDisk(format, world)
    ensures OnDiskThroughout(format, world, acts) <==> NeverLosesOwnFile(format, world, acts)
    ensures Valid(Run(format, world, acts).doc)
    ensures NeverLosesOwnFile(format, world, acts) ==> OnDisk(format, Run(format, world, acts))
    decreases |acts|
  {
    if acts != [] {
      OwnFileLostIff(format, world, acts[0]);
      var next := Perform(format, world, acts[0]).0;
      if LosesOwnFile(format, world.doc, acts[0]) {
        RunKeepsValid(format, next, acts[1..]);
      } else {
        RunOnDiskIff(format, next, acts[1..]);
      }
    }
  }

  lemma {:induction false} RunKeepsValid<D>(format: Format<D>, world: World<D>, acts: seq<Act<D>>)
    requires Valid(world.doc)
    ensures Valid(Run(format, world, acts).doc)
    ensures Run(format, world, acts).doc.line.limit == world.doc.line.limit
    decreases |acts|
  {
    if acts != [] {
      PerformKeepsValid(format, world, acts[0]);
      RunKeepsValid(format, Perform(format, world, acts[0]).0, acts[1..]);
    }
  }

  lemma PerformKeepsValid<D>(format: Format<D>, world: World<D>, act: Act<D>)
    requires Valid(world.doc)
    ensures Valid(Perform(format, world, act).0.doc)
    ensures Perform(format, world, act).0.doc.line.limit == world.doc.line.limit
  {
  }

  /** Over every run of a document made or opened: its file holds what was last saved throughout
      exactly when no save on the way does harm to it; and then, whenever the document is not dirty,
      its file holds its content. An opened document starts clean. */
  lemma CleanIsOnDisk<D(!new)>(format: Format<D>, files: Files, beginning: Beginning<D>, autosaveAfter: Option<nat>,
                               acts: seq<Act<D>>)
    requires ReadsBack(format)
    requires Begun(format, files, beginning, autosaveAfter).Ok?
    ensures var begun := World(Begun(format, files, beginning, autosaveAfter).value, files);
      && (beginning.FromFile? ==> !IsDirty(begun.doc))
      && (OnDiskThroughout(format, begun, acts) <==> NeverLosesOwnFile(format, begun, acts))
      && var after := Run(format, begun, acts);
         NeverLosesOwnFile(format, begun, acts) && !IsDirty(after.doc) ==>
           after.doc.path.Some? && Holds(format, after.files, after.doc.path.value, Content(after.doc))
  {
    RunOnDiskIff(format, World(Begun(format, files, beginning, autosaveAfter).value, files), acts);
  }

  /** When the run's last edit was; `before` is when the last one before it was. */
  function LastEdit<D>(acts: seq<Act<D>>, before: Option<nat>): Option<nat> {
    if acts == [] then before
    else LastEdit(acts[1..], if acts[0].Edit? then Some(acts[0].now) else before)
  }

  /** The file the run last saved to under a name; `before` is the one it had. Only a save that is written
      changes it. */
  function LastPath<D>(acts: seq<Act<D>>, before: Option<Path>): Option<Path> {
    if acts == [] then before
    else LastPath(acts[1..], if acts[0].SaveAs? && acts[0].outcome.Written? then Some(acts[0].path) else before)
  }

  lemma {:induction false} RunKeepsNotes<D>(format: Format<D>, world: World<D>, acts: seq<Act<D>>)
    requires world.doc.line.at < |world.doc.line.items|
    ensures var doc := Run(format, world, acts).doc;
      && doc.autosaveAfter == world.doc.autosaveAfter
      && doc.lastEdit == LastEdit(acts, world.doc.lastEdit) && doc.path == LastPath(acts, world.doc.path)
    decreases |acts|
  {
    if acts != [] {
      RunKeepsNotes(format, Perform(format, world, acts[0]).0, acts[1..]);
    }
  }

  /** `after` has passed from the last edit to `now`, clocks that run backwards counting as no time. */
  predicate Rested(after: Option<nat>, edited: Option<nat>, now: nat) {
    after.Some? && edited.Some? && (edited.value + after.value <= now || after.value == 0)
  }

  function PathOf(beginning: Beginning): Option<Path> {
    match beginning
    case Made(_) => None
    case FromFile(path) => Some(path)
  }

  /** Over the same runs, an autosave is due when the document has autosave and a file, is dirty, and has not
      been edited for the delay. One that is due and written leaves the document clean and its file holding its
      content; one that is not due changes nothing and says so. */
  lemma AutosaveReachesDisk<D(!new)>(format: Format<D>, files: Files, beginning: Beginning<D>,
                                     autosaveAfter: Option<nat>, acts: seq<Act<D>>, now: nat, outcome: Outcome)
    requires ReadsBack(format)
    requires Begun(format, files, beginning, autosaveAfter).Ok?
    requires NeverLosesOwnFile(format, World(Begun(format, files, beginning, autosaveAfter).value, files), acts)
    ensures var before := Run(format, World(Begun(format, files, beginning, autosaveAfter).value, files), acts);
      var (after, answer) := Perform(format, before, Autosave(now, outcome));
      var path := LastPath(acts, PathOf(beginning));
      var due := Rested(autosaveAfter, LastEdit(acts, None), now) && path.Some?
                 && before.doc.saved != Some(Present(before.doc.line));
      && (answer == Ok(true) <==> due && outcome.Written?)
      && (answer == Ok(true) ==>
            && !IsDirty(after.doc) && after.doc.path == path
            && Holds(format, after.files, path.value, Content(after.doc)))
      && (answer == Ok(false) <==> !due)
      && (answer == Ok(false) ==> after == before)
      && (answer.Err? ==> after.doc == before.doc && OnDisk(format, after))
  {
    var begun := World(Begun(format, files, beginning, autosaveAfter).value, files);
    RunOnDiskIff(format, begun, acts);
    var before := Run(format, begun, acts);
    RunKeepsNotes(format, begun, acts);
    OwnFileLostIff(format, before, Autosave(now, outcome));
    AutosaveAnswers(format, before, now, outcome);
  }

  lemma AutosaveAnswers<D>(format: Format<D>, world: World<D>, now: nat, outcome: Outcome)
    requires Valid(world.doc)
    ensures var (after, answer) := Perform(format, world, Autosave(now, outcome));
      && (answer == Ok(true) <==> AutosaveDue(world.doc, now) && outcome.Written?)
      && (answer == Ok(true) ==> !IsDirty(after.doc) && after.doc.path == world.doc.path)
      && (answer == Ok(false) <==> !AutosaveDue(world.doc, now))
      && (answer != Ok(true) ==> after.doc == world.doc)
  {
  }

  // ---------------------------------------------------------------------
  // Edits and undos
  // ---------------------------------------------------------------------

  /** The document's actions on its line alone. */
  function OnLine<D>(act: Act<D>): Histories.Act<D>
    requires act.Edit? || act.UndoOne? || act.RedoOne?
  {
    match act
    case Edit(content, _) => Record(content)
    case UndoOne => Histories.Undo
    case RedoOne => Histories.Redo
  }

  function EachOnLine<D>(acts: seq<Act<D>>): (on: seq<Histories.Act<D>>)
    requires forall i :: 0 <= i < |acts| ==> acts[i].Edit? || acts[i].UndoOne? || acts[i].RedoOne?
    ensures |on| == |acts| && forall i :: 0 <= i < |acts| ==> on[i] == OnLine(acts[i])
  {
    if acts == [] then [] else [OnLine(acts[0])] + EachOnLine(acts[1..])
  }

  lemma {:induction false} RunsOnLine<D>(format: Format<D>, world: World<D>, acts: seq<Act<D>>)
    requires world.doc.line.at < |world.doc.line.items|
    requires forall i :: 0 <= i < |acts| ==> acts[i].Edit? || acts[i].UndoOne? || acts[i].RedoOne?
    ensures Run(format, world, acts).doc.line == Histories.Run(world.doc.line, EachOnLine(acts))
    ensures Run(format, world, acts).doc.saved == world.doc.saved
    decreases |acts|
  {
    if acts != [] {
      RunsOnLine(format, Perform(format, world, acts[0]).0, acts[1..]);
      assert EachOnLine(acts)[1..] == EachOnLine(acts[1..]);
    }
  }

  function Edits<D>(contents: seq<D>, times: nat -> nat): seq<Act<D>> {
    seq(|contents|, i requires 0 <= i < |contents| => Edit(contents[i], times(i)))
  }

  /** Over every run of a document made or opened, once it is clean, as many undos as edits leave it
      clean exactly when there are no more of them than the history keeps, or the oldest content it
      still keeps is the saved one. */
  lemma UndoingEveryEditIsClean<D>(format: Format<D>, files: Files, beginning: Beginning<D>, autosaveAfter: Option<nat>,
                                   acts: seq<Act<D>>, contents: seq<D>, times: nat -> nat)
    requires Begun(format, files, beginning, autosaveAfter).Ok?
    requires !IsDirty(Run(format, World(Begun(format, files, beginning, autosaveAfter).value, files), acts).doc)
    ensures var clean := Run(format, World(Begun(format, files, beginning, autosaveAfter).value, files), acts);
      var k := |contents|;
      !IsDirty(Run(format, clean, Edits(contents, times) + seq(k, _ => UndoOne)).doc)
      <==> k <= HISTORY_LIMIT || Some(contents[k - HISTORY_LIMIT - 1]) == clean.doc.saved
  {
    var begun := World(Begun(format, files, beginning, autosaveAfter).value, files);
    RunKeepsValid(format, begun, acts);
    var clean := Run(format, begun, acts);
    var more := Edits(contents, times) + seq(|contents|, _ => UndoOne);
    RunsOnLine(format, clean, more);
    assert EachOnLine(more) == Records(contents) + Undos(|contents|);
    RecordsThenUndos(clean.doc.line, contents);
  }

  /** Reverting makes the content what was last saved, cleanly, and one undo brings back what it
      discarded. */
  lemma RevertDiscardsAndUndoRestores<D>(format: Format<D>, world: World<D>)
    requires Valid(world.doc) && OnDisk(format, world) && world.doc.path.Some?
    ensures var (after, answer) := Perform(format, world, Revert(true));
      && answer == Ok(true) && !IsDirty(after.doc) && Some(Content(after.doc)) == world.doc.saved
      && Content(Perform(format, after, UndoOne).0.doc) == Content(world.doc)
  {
  }

  // ---------------------------------------------------------------------
  // In place
  // ---------------------------------------------------------------------

  /** The files, as one place that writes, renames and removals change. */
  class FileSystem {
    var files: Files

    constructor (files: Files)
      ensures this.files == files
    {
      this.files := files;
    }

    method Write(path: Path, bytes: Bytes, outcome: Outcome) returns (ok: bool)
      modifies this
      ensures ok == !outcome.WriteFailed?
      ensures files == if ok then old(files)[path := bytes]
                       else if outcome.left.Some? then old(files)[path := outcome.left.value] else old(files)
    {
      if outcome.WriteFailed? {
        if outcome.left.Some? {
          files := files[path := outcome.left.value];
        }
        return false;
      }
      files := files[path := bytes];
      return true;
    }

    method Rename(from: Path, to: Path, outcome: Outcome) returns (ok: bool)
      requires from in files && from != to
      modifies this
      ensures ok == outcome.Written?
      ensures files == if ok then (old(files) - {from})[to := old(files)[from]] else old(files)
    {
      if !outcome.Written? {
        return false;
      }
      var bytes := files[from];
      files := (files - {from})[to := bytes];
      return true;
    }

    method Remove(path: Path, outcome: Outcome)
      modifies this
      ensures files == if outcome == RenameFailed(true) then old(files) - {path} else old(files)
    {
      if outcome == RenameFailed(true) {
        files := files - {path};
      }
    }
  }

  class DocumentController<D(==)> {
    const format: Format<D>
    const disk: FileSystem
    const content: History<D>
    var saved: Option<D>
    var path: Option<Path>
    var autosaveAfter: Option<nat>
    var lastEdit: Option<nat>


    ghost function View(): (world: World<D>)
      reads this, content, disk
      ensures world.doc.line.at < |world.doc.line.items|
    {
      World(Doc(content.View(), saved, path, autosaveAfter, lastEdit), disk.files)
    }

    constructor (format: Format<D>, disk: FileSystem, content: D, delay: Option<nat>)
      ensures this.format == format && this.disk == disk && fresh(this.content)
      ensures View() == World(Untitled(content, delay), old(disk.files))
    {
      this.format, this.disk := format, disk;
      var history := new History(content, HISTORY_LIMIT);
      this.content := history;
      saved, path, autosaveAfter, lastEdit := None, None, delay, None;
    }

    method EditTo(value: D, now: nat)
      modifies this, content
      ensures View() == Perform(format, old(View()), Edit(value, now)).0
    {
      content.Record(value);
      lastEdit := Some(now);
    }

    method Dirty() returns (dirty: bool)
      ensures dirty == IsDirty(View().doc)
    {
      content.Parts();
      dirty := saved != Some(content.present);
    }

    method UndoEdit() returns (undone: bool)
      modifies content
      ensures (View(), Ok(undone)) == Perform(format, old(View()), UndoOne)
    {
      undone := content.Undo();
    }

    method RedoEdit() returns (redone: bool)
      modifies content
      ensures (View(), Ok(redone)) == Perform(format, old(View()), RedoOne)
    {
      redone := content.Redo();
    }

    method SaveTo(target: Path, outcome: Outcome) returns (answer: Result<bool, DocumentError>)
      modifies this, disk
      ensures (View(), answer) == SavedAs(format, old(View()), target, outcome)
    {
      content.Parts();
      var staging := Staging(target);
      assert |staging| == |target| + 7;
      var written := disk.Write(staging, format.write(content.present), outcome);
      if !written {
        return Err(Io);
      }
      var renamed := disk.Rename(staging, target, outcome);
      if !renamed {
        disk.Remove(staging, outcome);
        assert disk.files == SavedAs(format, old(View()), target, outcome).0.files;
        return Err(Io);
      }
      saved := Some(content.present);
      path := Some(target);
      assert disk.files == SavedAs(format, old(View()), target, outcome).0.files;
      return Ok(true);
    }

    method SaveFile(outcome: Outcome) returns (answer: Result<bool, DocumentError>)
      modifies this, disk
      ensures (View(), answer) == Perform(format, old(View()), Save(outcome))
    {
      if path.None? {
        return Err(NeedsPath);
      }
      answer := SaveTo(path.value, outcome);
    }

    method RevertFile(readable: bool) returns (answer: Result<bool, DocumentError>)
      modifies this, content
      ensures (View(), answer) == Perform(format, old(View()), Revert(readable))
    {
      if path.None? {
        return Err(NeedsPath);
      }
      if !readable || path.value !in disk.files {
        return Err(Io);
      }
      var read := format.read(disk.files[path.value]);
      if read.Err? {
        return Err(NotReadable(read.error));
      }
      content.Record(read.value);
      saved := Some(read.value);
      return Ok(true);
    }

    method AutosaveFile(now: nat, outcome: Outcome) returns (answer: Result<bool, DocumentError>)
      modifies this, disk
      ensures (View(), answer) == Perform(format, old(View()), Autosave(now, outcome))
    {
      if autosaveAfter.None? || lastEdit.None? {
        return Ok(false);
      }
      var dirty := Dirty();
      var idle := if now < lastEdit.value then 0 else now - lastEdit.value;
      if path.None? || !dirty || idle < autosaveAfter.value {
        return Ok(false);
      }
      answer := SaveFile(outcome);
    }
  }
}
