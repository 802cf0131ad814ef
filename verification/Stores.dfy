/** Shared state: reentrant updates applied in request order, selections that know when they
    are stale, and memoized derivations (crates/rustnative-core/src/state.rs). */
module Stores {
  import opened Sequences
  import opened Wrappers

  /** An update's closure: from the value it finds, the value it leaves and the updates of the same
      store it makes while running, in order. */
  datatype Update<!T> = Update(run: T -> (T, seq<Update<T>>))

  /** What a closure leaves. */
  function Do<T>(u: Update<T>, value: T): T {
    (u.run)(value).0
  }

  /** What a closure asks for. */
  function Asked<T>(u: Update<T>, value: T): seq<Update<T>> {
    (u.run)(value).1
  }

  /** The value after the closures of `us`, one whole closure after another. */
  ghost function Changed<T>(value: T, us: seq<Update<T>>): T {
    if us == [] then value else Changed(Do(us[0], value), us[1..])
  }

  /** What they ask for, in order, when they run like that. */
  ghost function Requests<T>(value: T, us: seq<Update<T>>): seq<Update<T>>
    decreases |us|
  {
    if us == [] then [] else Asked(us[0], value) + Requests(Do(us[0], value), us[1..])
  }

  lemma {:induction false} ChangedAppend<T>(value: T, us: seq<Update<T>>, u: Update<T>)
    ensures Changed(value, us + [u]) == Do(u, Changed(value, us))
    decreases |us|
  {
    if us == [] {
      assert us + [u] == [u];
    } else {
      assert (us + [u])[1..] == us[1..] + [u];
      ChangedAppend(Do(us[0], value), us[1..], u);
    }
  }

  // ---------------------------------------------------------------------
  // The order of nested updates
  // ---------------------------------------------------------------------

  /** The queue once its front has run: what the front asked for has joined its back. */
  ghost function Next<T>(value: T, pending: seq<Update<T>>): seq<Update<T>>
    requires pending != []
  {
    pending[1..] + Asked(pending[0], value)
  }

  /** The queue is empty after `n` updates at most. */
  ghost predicate Ends<T>(value: T, pending: seq<Update<T>>, n: nat)
    decreases n
  {
    pending == [] || (n > 0 && Ends(Do(pending[0], value), Next(value, pending), n - 1))
  }

  /** The updates the queue applies, in order. */
  ghost function Applied<T>(value: T, pending: seq<Update<T>>, n: nat): seq<Update<T>>
    requires Ends(value, pending, n)
    decreases n
  {
    if pending == [] then []
    else [pending[0]] + Applied(Do(pending[0], value), Next(value, pending), n - 1)
  }

  lemma AppliedNext<T>(value: T, pending: seq<Update<T>>, n: nat)
    requires pending != [] && Ends(value, pending, n)
    ensures n > 0 && Ends(Do(pending[0], value), Next(value, pending), n - 1)
    ensures Applied(value, pending, n)
         == [pending[0]] + Applied(Do(pending[0], value), Next(value, pending), n - 1)
  {
  }

  /** Updates are applied in exactly the order they were asked for: those pending, then all that
      the applied ones ask for, each once. */
  lemma {:induction false} AppliesInRequestOrder<T>(value: T, pending: seq<Update<T>>, n: nat)
    requires Ends(value, pending, n)
    ensures var applied := Applied(value, pending, n);
      applied == pending + Requests(value, applied)
    decreases n
  {
    if pending != [] {
      var front, later := pending[0], Do(pending[0], value);
      var rest := Applied(later, Next(value, pending), n - 1);
      AppliesInRequestOrder(later, Next(value, pending), n - 1);
      assert ([front] + rest)[1..] == rest;
      assert pending == [front] + pending[1..];
    }
  }

  /** Updates nest `d` levels deep at most, running from `value`: a level runs in full, and what it
      asked for is the next. */
  ghost predicate NestsWithin<T>(value: T, level: seq<Update<T>>, d: nat)
    decreases d
  {
    level == [] || (d > 0 && NestsWithin(Changed(value, level), Requests(value, level), d - 1))
  }

  /** Breadth-first order: each level in full before what it asks for. */
  ghost function ByLevel<T>(value: T, level: seq<Update<T>>, d: nat): seq<Update<T>>
    requires NestsWithin(value, level, d)
    decreases d
  {
    if level == [] then []
    else level + ByLevel(Changed(value, level), Requests(value, level), d - 1)
  }

  lemma LevelMoves<T>(value: T, level: seq<Update<T>>, behind: seq<Update<T>>)
    requires level != []
    ensures var asked := Asked(level[0], value);
      && Next(value, level + behind) == level[1..] + (behind + asked)
      && (behind + asked) + Requests(Do(level[0], value), level[1..]) == behind + Requests(value, level)
  {
    var asked := Asked(level[0], value);
    assert (level + behind)[1..] == level[1..] + behind;
    Joined(level[1..], behind, asked);
    Joined(behind, asked, Requests(Do(level[0], value), level[1..]));
  }

  lemma LevelBegins<T>(value: T, level: seq<Update<T>>, behind: seq<Update<T>>, n: nat)
    requires level != [] && n > 0
    requires var asked := Asked(level[0], value); Ends(Do(level[0], value), level[1..] + (behind + asked), n - 1)
    ensures Ends(value, level + behind, n)
    ensures var asked := Asked(level[0], value);
      Applied(value, level + behind, n)
      == [level[0]] + Applied(Do(level[0], value), level[1..] + (behind + asked), n - 1)
  {
    LevelMoves(value, level, behind);
  }

  /** While a level runs, what it asks for collects behind it. */
  lemma {:induction false} LevelRuns<T>(value: T, level: seq<Update<T>>, behind: seq<Update<T>>, n: nat)
    requires Ends(Changed(value, level), behind + Requests(value, level), n)
    ensures Ends(value, level + behind, |level| + n)
    ensures Applied(value, level + behind, |level| + n)
         == level + Applied(Changed(value, level), behind + Requests(value, level), n)
    decreases |level|
  {
    if level == [] {
      assert level + behind == behind && behind + Requests(value, level) == behind;
    } else {
      var later, asked := Do(level[0], value), Asked(level[0], value);
      LevelMoves(value, level, behind);
      LevelRuns(later, level[1..], behind + asked, n);
      LevelBegins(value, level, behind, |level| + n);
      Joined([level[0]], level[1..], Applied(Changed(value, level), behind + Requests(value, level), n));
      assert level == [level[0]] + level[1..];
    }
  }

  /** When updates nest finitely the queue empties, and it has applied them breadth-first. */
  lemma {:induction false} AppliesByLevel<T>(value: T, level: seq<Update<T>>, d: nat)
    requires NestsWithin(value, level, d)
    ensures var n := |ByLevel(value, level, d)|;
      Ends(value, level, n) && Applied(value, level, n) == ByLevel(value, level, d)
    decreases d
  {
    if level != [] {
      var later, asked := Changed(value, level), Requests(value, level);
      AppliesByLevel(later, asked, d - 1);
      assert level + [] == level && [] + asked == asked;
      LevelRuns(value, level, [], |ByLevel(later, asked, d - 1)|);
    }
  }

  /** While a level runs the queue is used up, one update of it at a time. */
  lemma {:induction false} LevelEnds<T>(value: T, level: seq<Update<T>>, behind: seq<Update<T>>, n: nat)
    requires Ends(value, level + behind, n) && |level| <= n
    ensures Ends(Changed(value, level), behind + Requests(value, level), n - |level|)
    decreases |level|
  {
    if level == [] {
      assert level + behind == behind && behind + Requests(value, level) == behind;
    } else {
      var later, asked := Do(level[0], value), Asked(level[0], value);
      assert Next(value, level + behind) == level[1..] + (behind + asked);
      LevelEnds(later, level[1..], behind + asked, n - 1);
      assert (behind + asked) + Requests(later, level[1..]) == behind + Requests(value, level);
    }
  }

  lemma {:induction false} EndsTakesAll<T>(value: T, pending: seq<Update<T>>, n: nat)
    requires Ends(value, pending, n)
    ensures |pending| <= n
    decreases n
  {
    if pending != [] {
      EndsTakesAll(Do(pending[0], value), Next(value, pending), n - 1);
    }
  }

  lemma {:induction false} EndsNests<T>(value: T, level: seq<Update<T>>, n: nat)
    requires Ends(value, level, n)
    ensures NestsWithin(value, level, n)
    decreases n
  {
    if level != [] {
      EndsTakesAll(value, level, n);
      assert level + [] == level && [] + Requests(value, level) == Requests(value, level);
      LevelEnds(value, level, [], n);
      EndsNests(Changed(value, level), Requests(value, level), n - |level|);
      NestsMore(Changed(value, level), Requests(value, level), n - |level|, n - 1);
    }
  }

  lemma {:induction false} NestsMore<T>(value: T, level: seq<Update<T>>, d: nat, more: nat)
    requires NestsWithin(value, level, d) && d <= more
    ensures NestsWithin(value, level, more)
    decreases d
  {
    if level != [] {
      NestsMore(Changed(value, level), Requests(value, level), d - 1, more - 1);
    }
  }

  ghost predicate Terminates<T>(value: T, us: seq<Update<T>>) {
    exists n :: Ends(value, us, n)
  }

  ghost predicate NestsFinitely<T>(value: T, us: seq<Update<T>>) {
    exists d :: NestsWithin(value, us, d)
  }

  /** Updates terminate exactly when the updates they lead to nest finitely. */
  lemma TerminatesIffNestsFinitely<T>(value: T, us: seq<Update<T>>)
    ensures Terminates(value, us) <==> NestsFinitely(value, us)
  {
    if Terminates(value, us) {
      var n :| Ends(value, us, n);
      EndsNests(value, us, n);
      assert NestsWithin(value, us, n);
    }
    if NestsFinitely(value, us) {
      var d :| NestsWithin(value, us, d);
      AppliesByLevel(value, us, d);
      assert Ends(value, us, |ByLevel(value, us, d)|);
    }
  }

  /** However many updates more than needed are allowed for, the same ones are applied. */
  lemma {:induction false} AppliedIsOne<T>(value: T, pending: seq<Update<T>>, n: nat, m: nat)
    requires Ends(value, pending, n) && Ends(value, pending, m)
    ensures Applied(value, pending, n) == Applied(value, pending, m)
    decreases n
  {
    if pending != [] {
      AppliedIsOne(Do(pending[0], value), Next(value, pending), n - 1, m - 1);
    }
  }

  /** The updates applied by a queue that empties. */
  ghost function AllApplied<T>(value: T, pending: seq<Update<T>>): seq<Update<T>>
    requires Terminates(value, pending)
  {
    var n :| Ends(value, pending, n);
    Applied(value, pending, n)
  }

  lemma AllAppliedIs<T>(value: T, pending: seq<Update<T>>, n: nat)
    requires Ends(value, pending, n)
    ensures Terminates(value, pending) && AllApplied(value, pending) == Applied(value, pending, n)
  {
    var m :| Ends(value, pending, m) && AllApplied(value, pending) == Applied(value, pending, m);
    AppliedIsOne(value, pending, n, m);
  }

  // ---------------------------------------------------------------------
  // The store
  // ---------------------------------------------------------------------

  const WRAP: nat := 0x1_0000_0000_0000_0000

  /** A 64-bit counter, which wraps. */
  type Version = v: nat | v < WRAP

  /** The version `n` updates after `version`. */
  function VersionAfter(version: Version, n: nat): Version {
    (version + n) % WRAP
  }

  lemma VersionNext(n: nat)
    ensures VersionAfter(0, n + 1) == (VersionAfter(0, n) + 1) % WRAP
  {
    var rounds, rest := n / WRAP, n % WRAP;
    assert n == WRAP * rounds + rest;
    if rest + 1 < WRAP {
      Remainder(rounds, rest + 1);
    } else {
      Remainder(rounds + 1, 0);
      assert n + 1 == WRAP * (rounds + 1) + 0;
    }
  }

  lemma Remainder(rounds: nat, rest: nat)
    requires rest < WRAP
    ensures (WRAP * rounds + rest) % WRAP == rest
  {
  }

  /** One store update after another, each with all it leads to, take `value` to `later`. */
  ghost predicate Leads<T>(value: T, us: seq<Update<T>>, later: T)
    decreases |us|
  {
    if us == [] then later == value
    else Terminates(value, [us[0]]) && Leads(Changed(value, AllApplied(value, [us[0]])), us[1..], later)
  }

  lemma {:induction false} LeadsOn<T>(value: T, us: seq<Update<T>>, later: T, u: Update<T>)
    requires Leads(value, us, later) && Terminates(later, [u])
    ensures Leads(value, us + [u], Changed(later, AllApplied(later, [u])))
    decreases |us|
  {
    if us == [] {
      assert us + [u] == [u] && [u][1..] == [];
    } else {
      assert (us + [u])[1..] == us[1..] + [u];
      LeadsOn(Changed(value, AllApplied(value, [us[0]])), us[1..], later, u);
    }
  }

  lemma {:induction false} LeadsToOnly<T>(value: T, us: seq<Update<T>>, later: T)
    requires Leads(value, us, later)
    ensures forall other :: Leads(value, us, other) ==> other == later
    decreases |us|
  {
    if us != [] {
      LeadsToOnly(Changed(value, AllApplied(value, [us[0]])), us[1..], later);
    }
  }

  lemma {:induction false} ChangedOn<T>(value: T, us: seq<Update<T>>, more: seq<Update<T>>)
    ensures Changed(value, us + more) == Changed(Changed(value, us), more)
    decreases |us|
  {
    if us == [] {
      assert us + more == more;
    } else {
      assert (us + more)[1..] == us[1..] + more;
      ChangedOn(Do(us[0], value), us[1..], more);
    }
  }

  lemma UpdateEnds<T>(initial: T, updates: seq<Update<T>>, applied: seq<Update<T>>, value: T, u: Update<T>)
    requires Leads(initial, updates, value) && value == Changed(initial, applied) && Terminates(value, [u])
    ensures var more := AllApplied(value, [u]);
      Leads(initial, updates + [u], Changed(value, more)) && Changed(initial, applied + more) == Changed(value, more)
  {
    ChangedOn(initial, applied, AllApplied(value, [u]));
    LeadsOn(initial, updates, value, u);
  }

  /** `initial` is what the store was made with, `updates` the updates made since from outside any other,
      and `applied` every one that ran, in order: history the source does not keep. */
  class Store<T> {
    var value: T
    var version: Version
    var pending: seq<Update<T>>
    var applying: bool
    ghost const initial: T
    ghost var updates: seq<Update<T>>
    ghost var applied: seq<Update<T>>

    /** Between updates nothing is pending and the value is where the updates lead; it is always the whole
        effect of those applied, one after another; and the version counts the updates. */
    ghost predicate Valid()
      reads this
    {
      && (!applying ==> pending == [] && Leads(initial, updates, value))
      && value == Changed(initial, applied)
      && version == VersionAfter(0, |updates|)
    }

    constructor (value: T)
      ensures Valid() && !applying
      ensures this.value == value && version == 0 && applied == [] && updates == [] && initial == value
    {
      this.value, version, pending, applying := value, 0, [], false;
      initial, updates, applied := value, [], [];
    }

    /** From inside a running update the change is queued; otherwise it is applied, and then
        everything queued meanwhile, as one version. */
    method Apply(u: Update<T>)
      requires Valid()
      requires applying || Terminates(value, [u])
      modifies this
      ensures Valid() && applying == old(applying)
      ensures old(applying) ==>
        && pending == old(pending) + [u] && value == old(value) && version == old(version)
        && applied == old(applied) && updates == old(updates)
      ensures !old(applying) ==>
        && applied == old(applied) + AllApplied(old(value), [u]) && updates == old(updates) + [u]
        && value == Changed(old(value), AllApplied(old(value), [u]))
        && version == (old(version) + 1) % WRAP
      decreases if applying then 0 else 5
    {
      if applying {
        pending := pending + [u];
      } else {
        ApplyNow(u);
      }
    }

    /** Applies an update and everything it leads to as one version. */
    method ApplyNow(u: Update<T>)
      requires Valid() && !applying && Terminates(value, [u])
      modifies this
      ensures Valid() && !applying
      ensures applied == old(applied) + AllApplied(old(value), [u]) && updates == old(updates) + [u]
      ensures value == Changed(old(value), AllApplied(old(value), [u])) && version == (old(version) + 1) % WRAP
      decreases 4
    {
      ghost var made, before, was := updates, applied, value;
      UpdateEnds(initial, made, before, was, u);
      VersionNext(|made|);
      applying := true;
      RunAll(u);
      applying := false;
      version := (version + 1) % WRAP;
      updates := made + [u];
    }

    /** Runs an update and everything it leads to. */
    method RunAll(u: Update<T>)
      requires Valid() && applying && pending == [] && Terminates(value, [u])
      modifies this
      ensures Valid() && applying && version == old(version) && updates == old(updates) && pending == []
      ensures applied == old(applied) + AllApplied(old(value), [u])
      decreases 3
    {
      ghost var n: nat :| Ends(value, [u], n);
      AllAppliedIs(value, [u], n);
      assert Next(value, [u]) == Asked(u, value);
      Run(u);
      assert pending == Asked(u, old(value));
      Drain(n - 1);
    }

    /** Runs everything pending, and everything queued meanwhile. */
    method Drain(ghost n: nat)
      requires Valid() && applying && Ends(value, pending, n)
      modifies this
      ensures Valid() && applying && version == old(version) && updates == old(updates) && pending == []
      ensures applied == old(applied) + Applied(old(value), old(pending), n)
      decreases 2
    {
      ghost var left := n;
      while pending != []
        invariant Valid() && applying && version == old(version) && updates == old(updates)
        invariant Ends(value, pending, left)
        invariant applied + Applied(value, pending, left) == old(applied) + Applied(old(value), old(pending), n)
        decreases left
      {
        ghost var before, was, done := pending, value, applied;
        AppliedNext(value, pending, left);
        var next := pending[0];
        pending := pending[1..];
        Run(next);
        left := left - 1;
        assert pending == Next(was, before);
        Joined(done, [next], Applied(value, pending, left));
      }
    }

    /** Runs one closure: it changes the value, and its own updates are queued. */
    method Run(u: Update<T>)
      requires Valid() && applying
      modifies this
      ensures Valid() && applying && version == old(version) && updates == old(updates)
      ensures value == Do(u, old(value))
      ensures pending == old(pending) + Asked(u, old(value))
      ensures applied == old(applied) + [u]
      decreases 1
    {
      ChangedAppend(initial, applied, u);
      var (left, asked) := (u.run)(value);
      applied := applied + [u];
      value := left;
      for i := 0 to |asked|
        invariant Valid() && applying && version == old(version) && updates == old(updates) && value == left
        invariant pending == old(pending) + asked[..i]
        invariant applied == old(applied) + [u]
      {
        Apply(asked[i]);
        assert asked[..i + 1] == asked[..i] + [asked[i]];
      }
      assert asked[..|asked|] == asked;
    }
  }

  // ---------------------------------------------------------------------
  // Selections
  // ---------------------------------------------------------------------

  /** A recorded read: the slice seen, and the version it was seen at; `at` counts the updates the store had
      had by then and `was` is its value then, history the source does not keep. */
  class Selection<T, R(==)> {
    const store: Store<T>
    const version: Version
    const seen: R
    const select: T -> R
    ghost const at: nat
    ghost const was: T

    ghost predicate Valid()
      reads this, store
    {
      && store.Valid() && at <= |store.updates| && version == VersionAfter(0, at)
      && Leads(store.initial, store.updates[..at], was) && seen == select(was)
    }

    constructor (store: Store<T>, select: T -> R)
      requires store.Valid() && !store.applying
      ensures Valid() && this.store == store && this.select == select
      ensures at == |store.updates| && seen == select(store.value)
    {
      this.store, version, seen, this.select := store, store.version, select(store.value), select;
      at, was := |store.updates|, store.value;
      assert store.updates[..|store.updates|] == store.updates;
    }

    /** Whether the component that made the selection must render again: its slice changed, and the store
        was updated since, but not by whole rounds of versions. So fewer than 2^64 updates later, a
        selection that is not stale is current. */
    method IsStale() returns (stale: bool)
      requires Valid() && !store.applying
      ensures stale <==> (|store.updates| - at) % WRAP != 0 && select(store.value) != seen
      ensures |store.updates| - at < WRAP ==> (stale <==> select(store.value) != seen)
    {
      VersionsDiffer(at, |store.updates|);
      if |store.updates| == at {
        assert store.updates[..at] == store.updates;
        LeadsToOnly(store.initial, store.updates, store.value);
      }
      stale := store.version != version && select(store.value) != seen;
    }
  }

  lemma VersionsDiffer(before: nat, now: nat)
    requires before <= now
    ensures VersionAfter(0, now) != VersionAfter(0, before) <==> (now - before) % WRAP != 0
  {
    var version := VersionAfter(0, before);
    VersionAdds(before, now - before);
    if (now - before) % WRAP != 0 {
      VersionMoves(version, now - before);
    } else {
      var rounds := (now - before) / WRAP;
      assert now - before == WRAP * rounds;
      Remainder(rounds, version);
    }
  }

  lemma VersionAdds(before: nat, n: nat)
    ensures VersionAfter(0, before + n) == VersionAfter(VersionAfter(0, before), n)
  {
    var rounds, rest := before / WRAP, before % WRAP;
    assert before == WRAP * rounds + rest;
    var more := (rest + n) / WRAP;
    assert rest + n == WRAP * more + (rest + n) % WRAP;
    assert before + n == WRAP * (rounds + more) + (rest + n) % WRAP;
    Remainder(rounds + more, (rest + n) % WRAP);
  }

  /** A selection made on `value` notices a change of its slice by `n` updates that led to `later`. */
  ghost predicate RightlyFresh<T, R>(value: T, version: Version, select: T -> R, later: T, n: nat) {
    select(later) != select(value) ==> VersionAfter(version, n) != version
  }

  lemma FreshIfMoved<T, R>(value: T, version: Version, select: T -> R, later: T, n: nat)
    requires n % WRAP != 0 || later == value
    ensures RightlyFresh(value, version, select, later, n)
  {
    if n % WRAP != 0 {
      VersionMoves(version, n);
    }
  }

  /** After fewer updates than versions wrap at, a selection that is not stale is current. */
  lemma FreshBeforeWrap<T, R>(value: T, version: Version, select: T -> R, us: seq<Update<T>>, later: T)
    requires |us| < WRAP && Leads(value, us, later)
    ensures RightlyFresh(value, version, select, later, |us|)
  {
    SmallRemainder(|us|);
    FreshIfMoved(value, version, select, later, |us|);
  }

  lemma SmallRemainder(n: nat)
    requires n < WRAP
    ensures n % WRAP == n
  {
  }

  /** A selection can go wrong exactly when the versions have wrapped all the way round. */
  lemma FreshUnlessWrapped(n: nat)
    ensures (forall value: int, version: Version, select: int -> int, us: seq<Update<int>>, later: int ::
               |us| == n && Leads(value, us, later) ==> RightlyFresh(value, version, select, later, n))
       <==> n == 0 || n % WRAP != 0
  {
    if n > 0 && n % WRAP == 0 {
      var us := seq(n, _ => Update((x: int) => (1, [])));
      LeadsToOne(0, us);
      assert !RightlyFresh(0, 0, (x: int) => x, 1, n);
    } else {
      forall value: int, version: Version, select: int -> int, us: seq<Update<int>>, later: int
        | |us| == n && Leads(value, us, later)
        ensures RightlyFresh(value, version, select, later, n)
      {
        FreshIfMoved(value, version, select, later, n);
      }
    }
  }

  lemma VersionMoves(version: Version, n: nat)
    requires n % WRAP != 0
    ensures VersionAfter(version, n) != version
  {
    var rounds, rest := n / WRAP, n % WRAP;
    assert version + n == WRAP * rounds + (version + rest);
    if version + rest < WRAP {
      Remainder(rounds, version + rest);
    } else {
      assert version + n == WRAP * (rounds + 1) + (version + rest - WRAP);
      Remainder(rounds + 1, version + rest - WRAP);
    }
  }

  lemma {:induction false} LeadsToOne(value: int, us: seq<Update<int>>)
    requires us != [] && forall i, x :: 0 <= i < |us| ==> us[i].run(x) == (1, [])
    ensures Leads(value, us, 1)
    decreases |us|
  {
    assert us[0].run(value) == (1, []);
    assert Next(value, [us[0]]) == [];
    assert Ends(value, [us[0]], 1);
    assert Applied(value, [us[0]], 1) == [us[0]];
    AllAppliedIs(value, [us[0]], 1);
    assert Changed(value, [us[0]]) == Changed(1, [us[0]][1..]) == 1;
    if |us| > 1 {
      LeadsToOne(1, us[1..]);
    }
  }

  // ---------------------------------------------------------------------
  // Derived values
  // ---------------------------------------------------------------------

  /** A value computed from an input, cached, and recomputed only when the input changes. */
  class Derived<I(==), O> {
    const compute: I -> O
    var cache: Option<(I, O)>
    var computations: nat

    ghost predicate Valid()
      reads this
    {
      cache.Some? ==> cache.value.1 == compute(cache.value.0)
    }

    constructor (compute: I -> O)
      ensures Valid() && this.compute == compute && cache == None && computations == 0
    {
      this.compute, cache, computations := compute, None, 0;
    }

    /** Always what computing gives; an input equal to the last computes nothing. */
    method Get(input: I) returns (output: O)
      requires Valid()
      modifies this
      ensures Valid() && output == compute(input)
      ensures cache.Some? && cache.value.0 == input
      ensures computations ==
        old(computations) + if old(cache).Some? && old(cache).value.0 == input then 0 else 1
    {
      if cache.Some? && cache.value.0 == input {
        return cache.value.1;
      }
      output := compute(input);
      computations := computations + 1;
      cache := Some((input, output));
    }
  }
}
