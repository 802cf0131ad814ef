/** Undo and redo (`History`, crates/rustnative-data/src/history.rs). */
module Histories {
  import opened Sequences
  import opened Wrappers

  datatype Stamp = Stamp(name: string, time: nat)

  /** A line of values with one of them current: what can be undone is before it, what can be
      redone after it. */
  datatype Line<T> = Line(items: seq<T>, at: nat, limit: nat, group: Option<Stamp>)

  ghost predicate Sound<T>(line: Line<T>) {
    && line.at < |line.items| <= line.limit + 1
    && 1 <= line.limit
    && (line.group.Some? ==> line.at > 0)
  }

  function Present<T>(line: Line<T>): T
    requires line.at < |line.items|
  {
    line.items[line.at]
  }

  datatype Act<T> =
    | Record(value: T)
    | Coalesce(value: T, name: string, now: nat, window: nat)
    | Undo
    | Redo

  function New<T>(present: T, limit: nat): Line<T> {
    Line([present], 0, if limit < 1 then 1 else limit, None)
  }

  /** A new value after the current one, in place of what was undone; the oldest value goes when
      there are too many before it. */
  function Pushed<T>(line: Line<T>, value: T, group: Option<Stamp>): Line<T>
    requires line.at < |line.items|
  {
    var items := line.items[..line.at + 1] + [value];
    if line.at + 1 > line.limit then line.(items := items[1..], group := group)
    else line.(items := items, at := line.at + 1, group := group)
  }

  predicate Joins<T>(line: Line<T>, name: string, now: nat, window: nat) {
    match line.group
    case None => false
    case Some(last) => last.name == name && (if now < last.time then 0 else now - last.time) < window
  }

  function Step<T>(line: Line<T>, act: Act<T>): Line<T>
    requires line.at < |line.items|
  {
    match act
    case Record(value) => Pushed(line, value, None)
    case Coalesce(value, name, now, window) =>
      if Joins(line, name, now, window) then
        line.(items := line.items[..line.at] + [value], group := Some(Stamp(name, now)))
      else Pushed(line, value, Some(Stamp(name, now)))
    case Undo => if line.at == 0 then line else line.(at := line.at - 1, group := None)
    case Redo => if line.at + 1 == |line.items| then line else line.(at := line.at + 1, group := None)
  }

  function Run<T>(line: Line<T>, acts: seq<Act<T>>): (after: Line<T>)
    requires line.at < |line.items|
    ensures after.at < |after.items|
    decreases |acts|
  {
    if acts == [] then line else Run(Step(line, acts[0]), acts[1..])
  }

  lemma {:induction false} RunKeepsSound<T>(line: Line<T>, acts: seq<Act<T>>)
    requires Sound(line)
    ensures Sound(Run(line, acts)) && Run(line, acts).limit == line.limit
    decreases |acts|
  {
    if acts != [] {
      RunKeepsSound(Step(line, acts[0]), acts[1..]);
    }
  }

  /** The steps that can be undone and redone are never more than the limit. */
  lemma NeverBeyondTheLimit<T>(present: T, limit: nat, acts: seq<Act<T>>)
    ensures var line := Run(New(present, limit), acts);
      |line.items| - 1 <= if limit < 1 then 1 else limit
  {
    RunKeepsSound(New(present, limit), acts);
  }

  /** Undo and redo go back on each other and leave the line as it is. */
  lemma UndoAndRedoAreInverse<T>(line: Line<T>)
    requires Sound(line)
    ensures line.at > 0 ==> Step(Step(line, Undo), Redo) == line.(group := None)
    ensures line.at + 1 < |line.items| ==> Step(Step(line, Redo), Undo) == line.(group := None)
  {
  }

  function Undos<T>(k: nat): seq<Act<T>> {
    seq(k, _ => Undo)
  }

  /** `k` undos go `k` values back, or to the first. */
  lemma {:induction false} UndosGoBack<T>(line: Line<T>, k: nat)
    requires line.at < |line.items|
    ensures var after := Run(line, Undos(k));
      after.items == line.items && after.at == if k <= line.at then line.at - k else 0
    decreases k
  {
    if k > 0 {
      assert Undos<T>(k)[0] == Undo && Undos<T>(k)[1..] == Undos(k - 1);
      UndosGoBack(Step(line, Undo), k - 1);
    }
  }

  function Records<T>(values: seq<T>): seq<Act<T>> {
    seq(|values|, i requires 0 <= i < |values| => Record(values[i]))
  }

  /** All of `all`, its last value current, but the oldest beyond the limit. */
  function Trimmed<T>(all: seq<T>, limit: nat): Line<T>
    requires all != []
  {
    var dropped := if |all| <= limit + 1 then 0 else |all| - limit - 1;
    Line(all[dropped..], |all| - 1 - dropped, limit, None)
  }

  /** The line with `values` after the current one, and the oldest beyond the limit gone. */
  function Filled<T>(line: Line<T>, values: seq<T>): Line<T>
    requires Sound(line)
  {
    if values == [] then line else Trimmed(line.items[..line.at + 1] + values, line.limit)
  }

  lemma FilledOneByOne<T>(line: Line<T>, values: seq<T>)
    requires Sound(line) && values != []
    ensures Filled(Step(line, Record(values[0])), values[1..]) == Filled(line, values)
  {
    var before, first, rest := line.items[..line.at + 1], values[0], values[1..];
    RecordTrims(line, first);
    FilledTrimmed(before + [first], rest, line.limit);
    Joined(before, [first], rest);
    assert values == [first] + rest;
  }

  lemma FilledTrimmed<T>(all: seq<T>, rest: seq<T>, limit: nat)
    requires all != [] && limit > 0
    ensures Sound(Trimmed(all, limit)) && Filled(Trimmed(all, limit), rest) == Trimmed(all + rest, limit)
  {
    if rest == [] {
      assert all + rest == all;
    } else {
      var line := Trimmed(all, limit);
      assert line.items[..line.at + 1] == line.items;
      TrimmedTwice(all, rest, limit);
    }
  }

  /** One record is all there was up to the current value, and the new one, trimmed. */
  lemma RecordTrims<T>(line: Line<T>, value: T)
    requires Sound(line)
    ensures var next := Step(line, Record(value));
      next == Trimmed(line.items[..line.at + 1] + [value], line.limit) && next.items[..next.at + 1] == next.items
  {
  }

  lemma TrimmedTwice<T>(all: seq<T>, rest: seq<T>, limit: nat)
    requires all != []
    ensures Trimmed(Trimmed(all, limit).items + rest, limit) == Trimmed(all + rest, limit)
  {
    var a := if |all| <= limit + 1 then 0 else |all| - limit - 1;
    var b := if |all| - a + |rest| <= limit + 1 then 0 else |all| - a + |rest| - limit - 1;
    assert all[a..] + rest == (all + rest)[a..];
    DroppedTwice(all + rest, a, b);
  }

  lemma DroppedTwice<T>(s: seq<T>, a: nat, b: nat)
    requires a + b <= |s|
    ensures s[a..][b..] == s[a + b..]
  {
  }

  /** Recording values one by one puts them after the current one and drops as many of the
      oldest as are beyond the limit. */
  lemma {:induction false} RecordsAreKept<T>(line: Line<T>, values: seq<T>)
    requires Sound(line)
    ensures Run(line, Records(values)) == Filled(line, values)
    decreases |values|
  {
    if values != [] {
      assert Records(values)[0] == Record(values[0]) && Records(values)[1..] == Records(values[1..]);
      RecordsAreKept(Step(line, Record(values[0])), values[1..]);
      FilledOneByOne(line, values);
    }
  }

  /** After recording `values`, as many undos lead back to the value before them when there are
      no more of them than the limit, and otherwise to the oldest one kept. */
  lemma RecordsThenUndos<T>(line: Line<T>, values: seq<T>)
    requires Sound(line)
    ensures Present(Run(line, Records(values) + Undos(|values|)))
         == if |values| <= line.limit then Present(line) else values[|values| - line.limit - 1]
  {
    var recorded := Run(line, Records(values));
    RunJoined(line, Records(values), Undos(|values|));
    RecordsAreKept(line, values);
    UndosGoBack(recorded, |values|);
    if values != [] {
      AtTheEnd(line, values, recorded);
    }
  }

  lemma AtTheEnd<T>(line: Line<T>, values: seq<T>, recorded: Line<T>)
    requires Sound(line) && values != []
    requires recorded == Filled(line, values)
    ensures |recorded.items| == recorded.at + 1
    ensures recorded.items[if |values| <= recorded.at then recorded.at - |values| else 0]
         == if |values| <= line.limit then Present(line) else values[|values| - line.limit - 1]
  {
  }

  lemma {:induction false} RunJoined<T>(line: Line<T>, first: seq<Act<T>>, then': seq<Act<T>>)
    requires line.at < |line.items|
    ensures Run(line, first + then') == Run(Run(line, first), then')
    decreases |first|
  {
    if first == [] {
      assert first + then' == then';
    } else {
      assert (first + then')[0] == first[0] && (first + then')[1..] == first[1..] + then';
      RunJoined(Step(line, first[0]), first[1..], then');
    }
  }

  /** Changes in one group, each made within the window of the one before. */
  ghost predicate OneGroup<T>(acts: seq<Act<T>>) {
    && (acts != [] ==> acts[0].Coalesce?)
    && forall i :: 0 < i < |acts| ==> Follows(acts[i - 1], acts[i])
  }

  ghost predicate Follows<T>(before: Act<T>, act: Act<T>) {
    && before.Coalesce? && act.Coalesce?
    && act.name == before.name
    && (if act.now < before.now then 0 else act.now - before.now) < act.window
  }

  lemma {:induction false} AllCoalesce<T>(acts: seq<Act<T>>, i: nat)
    requires OneGroup(acts) && i < |acts|
    ensures acts[i].Coalesce? && acts[i].name == acts[0].name
  {
    if i > 0 {
      AllCoalesce(acts, i - 1);
      assert Follows(acts[i - 1], acts[i]);
    }
  }

  /** A run of changes in one group that joins nothing before it is one step: undoing it once
      gives back the line as it was, except for what was beyond its current value and, at the
      limit, its oldest. */
  lemma GroupIsOneStep<T>(line: Line<T>, acts: seq<Act<T>>)
    requires Sound(line) && acts != [] && OneGroup(acts)
    requires !Joins(line, acts[0].name, acts[0].now, acts[0].window)
    ensures acts[|acts| - 1].Coalesce?
    ensures var last := acts[|acts| - 1];
      && Run(line, acts) == Pushed(line, last.value, Some(Stamp(last.name, last.now)))
      && Present(Run(line, acts)) == last.value
      && Present(Step(Run(line, acts), Undo)) == Present(line)
  {
    var first := Step(line, acts[0]);
    AllCoalesce(acts, |acts| - 1);
    GroupJoins(first, acts);
    PushedIsUndone(line, acts[0].value, acts[|acts| - 1].value, Some(Stamp(acts[0].name, acts[0].now)));
  }

  lemma PushedIsUndone<T>(line: Line<T>, early: T, late: T, group: Option<Stamp>)
    requires Sound(line)
    ensures var pushed := Pushed(line, early, group);
      && pushed.items[..pushed.at] + [late] == Pushed(line, late, group).items
      && pushed.at + 1 == |pushed.items| && Present(pushed) == early
      && Present(Step(Pushed(line, late, group), Undo)) == Present(line)
  {
    var kept := line.items[if line.at + 1 > line.limit then 1 else 0..line.at + 1];
    assert Pushed(line, early, group).items == kept + [early];
    assert Pushed(line, late, group).items == kept + [late];
  }

  /** Once a group is begun, the rest of it only replaces the current value. */
  lemma {:induction false} GroupJoins<T>(first: Line<T>, acts: seq<Act<T>>)
    requires Sound(first) && acts != [] && OneGroup(acts)
    requires first.at + 1 == |first.items| && Present(first) == acts[0].value
    requires first.group == Some(Stamp(acts[0].name, acts[0].now))
    ensures acts[|acts| - 1].Coalesce?
    ensures var last := acts[|acts| - 1];
      Run(first, acts[1..])
      == first.(items := first.items[..first.at] + [last.value], group := Some(Stamp(last.name, last.now)))
    decreases |acts|
  {
    var rest := acts[1..];
    if rest == [] {
      assert first.items == first.items[..first.at] + [acts[0].value];
    } else {
      assert Follows(acts[0], acts[1]);
      var next := Step(first, rest[0]);
      assert next.items[..next.at] == first.items[..first.at];
      forall i | 0 < i < |rest|
        ensures Follows(rest[i - 1], rest[i])
      {
        assert Follows(acts[i], acts[i + 1]);
      }
      GroupJoins(next, rest);
    }
  }

  /** The last act of the run that did something, if any: an undo does nothing at the first value, a redo
      nothing at the last. `before` is the last one before the run. */
  function LastDone<T>(line: Line<T>, acts: seq<Act<T>>, before: Option<Act<T>>): Option<Act<T>>
    requires line.at < |line.items|
    decreases |acts|
  {
    if acts == [] then before
    else
      var idle := (acts[0].Undo? && line.at == 0) || (acts[0].Redo? && line.at + 1 == |line.items|);
      LastDone(Step(line, acts[0]), acts[1..], if idle then before else Some(acts[0]))
  }

  /** What the line remembers of the last change: its group, when it has one. */
  predicate Remembers<T>(line: Line<T>, last: Option<Act<T>>) {
    line.group == match last
                  case Some(Coalesce(_, name, now, _)) => Some(Stamp(name, now))
                  case _ => None
  }

  lemma {:induction false} LastIsRemembered<T>(line: Line<T>, acts: seq<Act<T>>, before: Option<Act<T>>)
    requires Sound(line) && Remembers(line, before)
    ensures Remembers(Run(line, acts), LastDone(line, acts, before))
    decreases |acts|
  {
    if acts != [] {
      var idle := (acts[0].Undo? && line.at == 0) || (acts[0].Redo? && line.at + 1 == |line.items|);
      LastIsRemembered(Step(line, acts[0]), acts[1..], if idle then before else Some(acts[0]));
    }
  }

  /** After any acts on a new history, a change in a group joins the last step exactly when that was a change
      in the same group within the window; so an undo, a redo or a plain record ends the group. Either way
      it is shown and nothing is left to redo; undoing it goes back to what was shown, or, when it joined, to
      what undoing the last step goes back to. */
  lemma JoinsOnlyTheLastChange<T>(present: T, limit: nat, acts: seq<Act<T>>, act: Act<T>)
    requires act.Coalesce?
    ensures var line := Run(New(present, limit), acts);
      var last := LastDone(New(present, limit), acts, None);
      var after := Step(line, act);
      && Present(after) == act.value && after.at + 1 == |after.items|
      && if last.Some? && Follows(last.value, act) then
           after.at == line.at > 0 && Present(Step(after, Undo)) == Present(Step(line, Undo))
         else
           && Present(Step(after, Undo)) == Present(line)
           && after.at == if line.at < line.limit then line.at + 1 else line.at
  {
    var line := Run(New(present, limit), acts);
    RunKeepsSound(New(present, limit), acts);
    LastIsRemembered(New(present, limit), acts, None);
    PushedIsUndone(line, act.value, act.value, Some(Stamp(act.name, act.now)));
  }

  // ---------------------------------------------------------------------
  // In place
  // ---------------------------------------------------------------------

  function Reversed<T>(s: seq<T>): (r: seq<T>)
    ensures |r| == |s|
  {
    if s == [] then [] else [s[|s| - 1]] + Reversed(s[..|s| - 1])
  }

  /** The last value before the current one becomes the current one, on the same line. */
  lemma Moved<T>(past: seq<T>, present: T, future: seq<T>)
    requires past != []
    ensures past[..|past| - 1] + [past[|past| - 1]] + Reversed(future + [present])
         == past + [present] + Reversed(future)
  {
    assert (future + [present])[..|future|] == future;
    assert past[..|past| - 1] + [past[|past| - 1]] == past;
  }

  class History<T> {
    var past: seq<T>
    var present: T
    var future: seq<T>
    const limit: nat
    var group: Option<Stamp>

    ghost function View(): (line: Line<T>)
      reads this
      ensures line.at < |line.items|
    {
      Line(past + [present] + Reversed(future), |past|, limit, group)
    }

    lemma Parts()
      ensures View().items[..View().at] == past
      ensures View().items[..View().at + 1] == past + [present]
      ensures Present(View()) == present
      ensures View().items[|past| + 1..] == Reversed(future)
    {
    }

    constructor (present: T, limit: nat)
      ensures View() == New(present, limit)
    {
      past, future, group := [], [], None;
      this.present := present;
      this.limit := if limit < 1 then 1 else limit;
      new;
      assert past + [present] + Reversed(future) == [present];
    }

    method Push(value: T)
      modifies this`past, this`present, this`future
      ensures View() == Pushed(old(View()), value, group)
    {
      Parts();
      var previous := present;
      present := value;
      past := past + [previous];
      if |past| > limit {
        past := past[1..];
      }
      future := [];
    }

    method Record(value: T)
      modifies this
      ensures View() == Step(old(View()), Act.Record(value))
    {
      group := None;
      Push(value);
    }

    method RecordCoalesced(value: T, name: string, now: nat, window: nat)
      modifies this
      ensures View() == Step(old(View()), Coalesce(value, name, now, window))
    {
      Parts();
      var joins := group.Some? && group.value.name == name
                   && (if now < group.value.time then 0 else now - group.value.time) < window;
      group := Some(Stamp(name, now));
      if joins {
        present := value;
        future := [];
      } else {
        Push(value);
      }
    }

    method Undo() returns (undone: bool)
      modifies this
      ensures View() == Step(old(View()), Act.Undo)
      ensures undone == (old(View()).at > 0)
    {
      if past == [] {
        return false;
      }
      group := None;
      Moved(past, present, future);
      future := future + [present];
      present := past[|past| - 1];
      past := past[..|past| - 1];
      return true;
    }

    method Redo() returns (redone: bool)
      modifies this
      ensures View() == Step(old(View()), Act.Redo)
      ensures redone == (old(View()).at + 1 < |old(View()).items|)
    {
      if future == [] {
        return false;
      }
      group := None;
      past := past + [present];
      present := future[|future| - 1];
      future := future[..|future| - 1];
      Moved(past, present, future);
      assert past[..|past| - 1] == old(past) && future + [present] == old(future);
      return true;
    }
  }
}
