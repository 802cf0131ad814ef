/** The query client: every key's entry, slot and tasks, updated in place
    (crates/rustnative-data/src/query.rs). Each method does to its key what QueryCache says
    and leaves every other key alone. */
module QueryClients {
  import opened QueryCache
  import opened QueryKeys
  import opened Wrappers

  datatype Task = Task(key: QueryKey, work: Work)

  ghost function WorksOf(tasks: map<nat, Task>, key: QueryKey): map<nat, Work> {
    map t | t in tasks && tasks[t].key == key :: tasks[t].work
  }

  lemma WorksAdd(tasks: map<nat, Task>, t: nat, task: Task, key: QueryKey)
    requires t !in tasks || tasks[t].key == task.key
    ensures WorksOf(tasks[t := task], key)
         == if key == task.key then WorksOf(tasks, key)[t := task.work] else WorksOf(tasks, key)
  {
  }

  lemma WorksRemove(tasks: map<nat, Task>, t: nat, key: QueryKey)
    ensures WorksOf(tasks - {t}, key) == WorksOf(tasks, key) - {t}
    ensures t in tasks && tasks[t].key != key ==> WorksOf(tasks - {t}, key) == WorksOf(tasks, key)
  {
  }

  /** A key's state when the counters stand at `next` and `fetches`. */
  function At<V>(s: KeyState<V>, next: nat, fetches: nat): KeyState<V> {
    s.(next := next, fetches := fetches)
  }

  function Refetched<V>(s: KeyState<V>, staleOnly: bool, now: nat): KeyState<V> {
    if staleOnly && !IsStale(s, now) then s else QueryCache.StartFetch(s, false, false)
  }

  ghost predicate FetchRan<V>(before: KeyState<V>, after: KeyState<V>, staleOnly: bool, now: nat) {
    exists n: nat, f: nat :: FetchRanAt(before, after, n, f, staleOnly, now)
  }

  ghost predicate FetchRanAt<V>(before: KeyState<V>, after: KeyState<V>, n: nat, f: nat, staleOnly: bool, now: nat) {
    var fetched := Refetched(At(before, n, f), staleOnly, now);
    before.next <= n && fetched.next <= after.next && after == At(fetched, after.next, after.fetches)
  }

  lemma RanStays<V>(before: KeyState<V>, after: KeyState<V>, n: nat, f: nat, next: nat, fetches: nat,
                    staleOnly: bool, now: nat)
    requires FetchRanAt(before, after, n, f, staleOnly, now) && after.next <= next
    ensures FetchRanAt(before, At(after, next, fetches), n, f, staleOnly, now)
  {
  }

  /** The event happened once to the key, at some point between `before` and `after`. */
  ghost predicate Ran<V>(before: KeyState<V>, after: KeyState<V>, event: Event<V>, now: nat)
    requires event.Invalidated? || event.Returned?
  {
    exists n: nat, f: nat :: RanAt(before, after, n, f, event, now)
  }

  ghost predicate RanAt<V>(before: KeyState<V>, after: KeyState<V>, n: nat, f: nat, event: Event<V>, now: nat)
    requires event.Invalidated? || event.Returned?
  {
    var stepped := Step(At(before, n, f), event, now);
    before.next <= n && stepped.next <= after.next && after == At(stepped, after.next, after.fetches)
  }

  lemma RanKeeps<V>(before: KeyState<V>, after: KeyState<V>, event: Event<V>, now: nat)
    requires event.Invalidated? || event.Returned?
    requires Inv(before) && Ran(before, after, event, now)
    ensures Inv(after)
  {
    var n: nat, f: nat :| RanAt(before, after, n, f, event, now);
    Later(before, n, f);
    StepKeeps(At(before, n, f), event, now);
    Later(Step(At(before, n, f), event, now), after.next, after.fetches);
  }

  function Marked<V>(s: KeyState<V>): KeyState<V> {
    if s.meta.Some? then SetMeta(s, s.meta.value.(invalidated := true)) else s
  }

  lemma InvalidateRan<V>(before: KeyState<V>, after: KeyState<V>, fetched: bool, now: nat)
    requires Inv(before) && before.next <= after.next
    requires fetched == (before.meta.Some? && before.meta.value.known != {})
    requires if fetched then FetchRan(Marked(before), after, false, now)
             else after == At(Marked(before), after.next, after.fetches)
    ensures Ran(before, after, Invalidated, now) && Inv(after)
  {
    var n: nat, f: nat := after.next, after.fetches;
    if fetched {
      n, f :| FetchRanAt(Marked(before), after, n, f, false, now);
    }
    assert RanAt(before, after, n, f, Invalidated, now);
    RanKeeps(before, after, Invalidated, now);
  }

  lemma RevalidateRan<V>(before: KeyState<V>, after: KeyState<V>, fetched: bool, applies: bool, now: nat)
    requires Inv(before) && before.next <= after.next
    requires fetched == (before.meta.Some? && before.meta.value.known != {} && applies)
    requires if fetched then FetchRan(before, after, true, now) else after == At(before, after.next, after.fetches)
    ensures Ran(before, after, Returned(applies), now) && Inv(after)
  {
    var n: nat, f: nat := after.next, after.fetches;
    if fetched {
      n, f :| FetchRanAt(before, after, n, f, true, now);
    }
    assert RanAt(before, after, n, f, Returned(applies), now);
    RanKeeps(before, after, Returned(applies), now);
  }

  /** Whether the entry is fetched again on focus, or when the network returns. */
  predicate Applies<V>(s: KeyState<V>, focus: bool) {
    s.meta.Some? && (if focus then s.meta.value.options.onFocus else s.meta.value.options.onReconnect)
  }

  class QueryClient<V> {
    var meta: map<QueryKey, Meta>
    var slots: map<QueryKey, Slot<V>>
    var tasks: map<nat, Task>
    var next: nat
    var fetches: nat
    ghost var handles: map<QueryKey, map<ComponentId, nat>>

    ghost function View(key: QueryKey): KeyState<V>
      reads this
    {
      KeyState(
        if key in meta then Some(meta[key]) else None,
        if key in slots then Some(slots[key]) else None,
        WorksOf(tasks, key),
        if key in handles then handles[key] else map[],
        next, fetches)
    }

    /** What an entry remembers of a task is a task of its own key, or one that ended. */
    ghost predicate Owns(key: QueryKey, task: Option<nat>)
      reads this
    {
      task.Some? ==> task.value < next && (task.value in tasks ==> tasks[task.value].key == key)
    }

    ghost predicate Owned()
      reads this
    {
      && (forall t :: t in tasks ==> t < next)
      && forall key :: key in meta ==>
           Owns(key, meta[key].task) && Owns(key, meta[key].interval) && Owns(key, meta[key].retention)
    }

    /** Every key keeps what QueryCache says each step keeps. */
    ghost predicate Valid()
      reads this
    {
      Owned() && forall key :: Inv(View(key))
    }

    /** Every key but `key` is as it was; only the counters moved on. */
    twostate predicate OnlyKey(key: QueryKey)
      reads this
    {
      && old(next) <= next
      && forall k :: k != key ==> View(k) == old(View(k)).(next := next, fetches := fetches)
    }

    constructor ()
      ensures Valid()
      ensures forall key :: View(key) == Unused(0, 0)
    {
      meta, slots, tasks, next, fetches := map[], map[], map[], 0, 0;
      handles := map[];
    }

    /** A step of one key keeps every key's invariant; `before` is every key's state before it. */
    lemma KeepsValid(before: imap<QueryKey, KeyState<V>>, key: QueryKey, event: Event<V>, now: nat)
      requires Owned() && forall k :: k in before && Inv(before[k])
      requires before[key].next <= next
      requires forall k :: k != key ==> View(k) == before[k].(next := next, fetches := fetches)
      requires forall k :: before[k].next == before[key].next
      requires Enabled(before[key], event) && View(key) == Step(before[key], event, now)
      ensures Valid()
    {
      StepKeeps(before[key], event, now);
      forall k | k != key
        ensures Inv(View(k))
      {
        Later(before[k], next, fetches);
      }
    }

    method SpawnTask(key: QueryKey, work: Work) returns (t: nat)
      requires Owned()
      modifies this`tasks, this`next
      ensures Owned() && t == old(next) && Owns(key, Some(t))
      ensures View(key) == Spawn(old(View(key)), work) && OnlyKey(key)
    {
      t := next;
      forall k {
        WorksAdd(tasks, t, Task(key, work), k);
      }
      tasks := tasks[t := Task(key, work)];
      next := next + 1;
    }

    method CancelTask(key: QueryKey, task: Option<nat>)
      requires Owned() && Owns(key, task)
      modifies this`tasks
      ensures Owned() && forall t :: t in tasks ==> t in old(tasks) && tasks[t] == old(tasks)[t]
      ensures View(key) == Cancel(old(View(key)), task) && OnlyKey(key)
    {
      if task.Some? {
        forall k {
          WorksRemove(tasks, task.value, k);
        }
        tasks := tasks - {task.value};
      }
    }

    function SlotAt(key: QueryKey): Slot<V>
      reads this
    {
      if key in slots then slots[key] else Slot(None, None, false, false)
    }

    method PutMeta(key: QueryKey, entry: Meta)
      requires Owned() && Owns(key, entry.task) && Owns(key, entry.interval) && Owns(key, entry.retention)
      modifies this`meta
      ensures Owned()
      ensures View(key) == SetMeta(old(View(key)), entry) && OnlyKey(key)
    {
      meta := meta[key := entry];
    }

    method PutSlot(key: QueryKey, slot: Slot<V>)
      requires Owned()
      modifies this`slots
      ensures Owned()
      ensures View(key) == old(View(key)).(slot := Some(slot)) && OnlyKey(key)
    {
      slots := slots[key := slot];
    }

    method StartFetch(key: QueryKey, more: bool, hasNext: bool)
      requires Owned()
      modifies this
      ensures Owned()
      ensures View(key) == QueryCache.StartFetch(old(View(key)), more, hasNext) && OnlyKey(key)
    {
      if key !in meta || meta[key].task.Some? {
        return;
      }
      if more && !(meta[key].options.paged && SlotAt(key).data.Some? && hasNext) {
        return;
      }
      fetches := fetches + 1;
      PutSlot(key, if more then SlotAt(key).(loadingMore := true) else SlotAt(key).(fetching := true));
      var t := SpawnTask(key, Fetch(more, 0, meta[key].options.retries));
      PutMeta(key, meta[key].(task := Some(t)));
    }

    method ScheduleRetention(key: QueryKey)
      requires Owned()
      modifies this
      ensures Owned()
      ensures View(key) == QueryCache.ScheduleRetention(old(View(key))) && OnlyKey(key)
    {
      if key !in meta {
        return;
      }
      var t := SpawnTask(key, Retain);
      CancelTask(key, meta[key].retention);
      PutMeta(key, meta[key].(retention := Some(t)));
    }

    method Mounted(key: QueryKey, now: nat)
      requires Owned() && key in meta
      modifies this
      ensures Owned()
      ensures View(key) == QueryCache.Mounted(old(View(key)), now) && OnlyKey(key)
    {
      var options := meta[key].options;
      var polls := meta[key].interval.Some?;
      if SlotAt(key).data.None? || options.onMount {
        var stale := Stale(key, now);
        if stale {
          StartFetch(key, false, false);
        }
      }
      if options.interval.Some? && !polls {
        var t := SpawnTask(key, Poll);
        PutMeta(key, meta[key].(interval := Some(t)));
      }
    }

    method Observe(key: QueryKey, id: ComponentId, options: Options)
      requires Owned()
      modifies this
      ensures Owned() && key in meta && OnlyKey(key)
      ensures View(key) == QueryCache.Observe(old(View(key)), id, options)
    {
      var entry := if key in meta then meta[key] else NewMeta(options);
      Count1(key, id);
      CancelTask(key, entry.retention);
      PutMeta(key, entry.(
        options := options,
        retention := None,
        observers := entry.observers[id := Count(entry.observers, id) + 1],
        known := entry.known + {id}));
    }

    /** A component renders with the query, holding one more observer of it. */
    method UseQuery(key: QueryKey, id: ComponentId, options: Options, now: nat)
      requires Valid()
      modifies this
      ensures Valid()
      ensures View(key) == Step(old(View(key)), Render(id, options), now) && OnlyKey(key)
    {
      var mounted := !(key in meta && id in meta[key].known);
      Observe(key, id, options);
      if mounted {
        Mounted(key, now);
      }
      KeepsValid(imap k: QueryKey | true :: old(View(k)), key, Render(id, options), now);
    }

    ghost method Count1(key: QueryKey, id: ComponentId)
      requires Owned()
      modifies this`handles
      ensures Owned()
      ensures View(key)
           == old(View(key)).(handles := old(View(key)).handles[id := Count(old(View(key)).handles, id) + 1])
      ensures OnlyKey(key)
    {
      var held := View(key).handles;
      handles := handles[key := held[id := Count(held, id) + 1]];
    }

    /** A selection holding an observer goes away. */
    method DropObserver(key: QueryKey, id: ComponentId, now: nat)
      requires Valid() && Count(View(key).handles, id) > 0
      modifies this
      ensures Valid()
      ensures View(key) == Step(old(View(key)), Drop(id), now) && OnlyKey(key)
    {
      Uncount1(key, id);
      if key in meta && id in meta[key].observers {
        var observers := meta[key].observers;
        var count := if observers[id] == 0 then 0 else observers[id] - 1;
        PutMeta(key, meta[key].(observers := observers[id := count]));
        if count == 0 {
          var _ := SpawnTask(key, Settle(id));
        }
      }
      KeepsValid(imap k: QueryKey | true :: old(View(k)), key, Drop(id), now);
    }

    ghost method Uncount1(key: QueryKey, id: ComponentId)
      requires Owned() && Count(View(key).handles, id) > 0
      modifies this`handles
      ensures Owned()
      ensures View(key) == old(View(key)).(handles := old(View(key)).handles[id := old(View(key)).handles[id] - 1])
      ensures OnlyKey(key)
    {
      var held := View(key).handles;
      var left: nat := held[id] - 1;
      handles := handles[key := held[id := left]];
    }

    /** Nobody wants the key: stop fetching it. */
    method StopFetching(key: QueryKey)
      requires Owned() && key in meta
      modifies this
      ensures Owned() && OnlyKey(key)
      ensures View(key) == QueryCache.StopFetching(old(View(key)))
    {
      var entry := meta[key];
      CancelTask(key, entry.task);
      CancelTask(key, entry.interval);
      PutMeta(key, entry.(task := None, interval := None));
      PutSlot(key, SlotAt(key).(fetching := false, loadingMore := false));
    }

    /** An observer's settling runs. */
    method SettleObserver(task: nat, now: nat)
      requires Valid() && task in tasks && tasks[task].work.Settle?
      modifies this
      ensures Valid()
      ensures var key := old(tasks[task].key);
        View(key) == Step(old(View(key)), RunSettle(task), now) && OnlyKey(key)
    {
      var key, id := tasks[task].key, tasks[task].work.id;
      CancelTask(key, Some(task));
      if key in meta && Count(meta[key].observers, id) == 0 {
        var entry := meta[key].(observers := meta[key].observers - {id}, known := meta[key].known - {id});
        PutMeta(key, entry);
        if entry.known == {} {
          StopFetching(key);
          ScheduleRetention(key);
        }
      }
      KeepsValid(imap k: QueryKey | true :: old(View(k)), key, RunSettle(task), now);
    }

    method Forget(key: QueryKey)
      requires Owned()
      modifies this`meta, this`slots
      ensures Owned() && OnlyKey(key)
      ensures View(key) == old(View(key)).(meta := None, slot := None)
    {
      meta := meta - {key};
      slots := slots - {key};
    }

    /** A retention timer fires. */
    method Collect(task: nat, now: nat)
      requires Valid() && task in tasks && tasks[task].work.Retain?
      modifies this
      ensures Valid()
      ensures var key := old(tasks[task].key);
        View(key) == Step(old(View(key)), RunRetain(task), now) && OnlyKey(key)
    {
      var key := tasks[task].key;
      CancelTask(key, Some(task));
      if key in meta && meta[key].known == {} && meta[key].task.None? {
        Forget(key);
      }
      KeepsValid(imap k: QueryKey | true :: old(View(k)), key, RunRetain(task), now);
    }

    method TryAgain(key: QueryKey, task: nat)
      requires Owned() && task in tasks && tasks[task].key == key && tasks[task].work.Fetch?
      modifies this`tasks
      ensures Owned() && OnlyKey(key)
      ensures View(key) == old(View(key)).(
        works := old(View(key)).works[task := old(tasks[task].work).(attempt := old(tasks[task].work.attempt) + 1)])
    {
      var again := Task(key, tasks[task].work.(attempt := tasks[task].work.attempt + 1));
      forall k {
        WorksAdd(tasks, task, again, k);
      }
      tasks := tasks[task := again];
    }

    method SettleFetch(key: QueryKey, task: nat, outcome: Result<V, string>, same: bool, now: nat)
      requires Owned() && task in tasks && tasks[task].key == key && tasks[task].work.Fetch?
      modifies this
      ensures Owned() && OnlyKey(key)
      ensures View(key) == QueryCache.SettleFetch(old(View(key)), task, outcome, same, now)
    {
      CancelTask(key, Some(task));
      if key !in meta {
        return;
      }
      var entry := meta[key].(task := None);
      var slot := SlotAt(key).(fetching := false, loadingMore := false);
      match outcome
      case Ok(data) =>
        PutMeta(key, entry.(fetchedAt := Some(now), invalidated := false));
        PutSlot(key, slot.(data := if slot.data.Some? && same then slot.data else Some(data), error := None));
      case Err(message) =>
        PutMeta(key, entry);
        PutSlot(key, slot.(error := Some(message)));
    }

    /** A fetch's future is ready: try again, or settle it. */
    method FetchReplied(task: nat, reply: Reply<V>, same: bool, now: nat)
      requires Valid() && task in tasks && tasks[task].work.Fetch?
      modifies this
      ensures Valid()
      ensures var key := old(tasks[task].key);
        View(key) == Step(old(View(key)), FetchReply(task, reply, same), now) && OnlyKey(key)
    {
      var key, work := tasks[task].key, tasks[task].work;
      if reply.Failed? && reply.retryable && work.attempt < work.retries {
        TryAgain(key, task);
        assert View(key) == Replied(old(View(key)), task, reply, same, now);
      } else {
        SettleFetch(key, task, if reply.Loaded? then Ok(reply.data) else Err(reply.message), same, now);
        assert View(key) == Replied(old(View(key)), task, reply, same, now);
      }
      KeepsValid(imap k: QueryKey | true :: old(View(k)), key, FetchReply(task, reply, same), now);
    }

    /** An interval's poll, or the next page: at most one fetch starts. */
    method Refetch(key: QueryKey, event: Event<V>, now: nat)
      requires Valid() && Enabled(View(key), event) && (event.RunPoll? || event.NextPage?)
      modifies this
      ensures Valid()
      ensures View(key) == Step(old(View(key)), event, now) && OnlyKey(key)
    {
      StartFetch(key, event.NextPage?, event.NextPage? && event.hasNext);
      KeepsValid(imap k: QueryKey | true :: old(View(k)), key, event, now);
    }

    method Prefetch(key: QueryKey, options: Options, now: nat)
      requires Valid()
      modifies this
      ensures Valid()
      ensures View(key) == Step(old(View(key)), Prefetched(options), now) && OnlyKey(key)
    {
      if key !in meta {
        PutMeta(key, NewMeta(options));
      }
      var stale := Stale(key, now);
      if stale {
        StartFetch(key, false, false);
      }
      ScheduleRetention(key);
      KeepsValid(imap k: QueryKey | true :: old(View(k)), key, Prefetched(options), now);
    }

    method FetchOne(key: QueryKey, staleOnly: bool, now: nat)
      requires Owned()
      modifies this
      ensures Owned() && OnlyKey(key)
      ensures View(key) == Refetched(old(View(key)), staleOnly, now)
    {
      var stale := true;
      if staleOnly {
        stale := Stale(key, now);
      }
      if stale {
        StartFetch(key, false, false);
      }
    }

    /** Fetches each of `keys` in turn, in an order the map's iteration decides; with
        `staleOnly`, those that are stale. */
    method FetchEach(keys: set<QueryKey>, staleOnly: bool, now: nat)
      requires Owned()
      modifies this
      ensures Owned() && old(next) <= next
      ensures forall k :: k !in keys ==> View(k) == old(View(k)).(next := next, fetches := fetches)
      ensures forall k :: k in keys ==> FetchRan(old(View(k)), View(k), staleOnly, now)
    {
      var left := keys;
      ghost var turn: map<QueryKey, (nat, nat)> := map[];
      while left != {}
        invariant Owned() && old(next) <= next
        invariant left <= keys && turn.Keys == keys - left
        invariant forall k :: k !in turn ==> View(k) == At(old(View(k)), next, fetches)
        invariant forall k :: k in turn ==>
          FetchRanAt(old(View(k)), View(k), turn[k].0, turn[k].1, staleOnly, now)
      {
        var key :| key in left;
        ghost var ran, before := turn, imap k | true :: View(k);
        turn := turn[key := (next, fetches)];
        left := left - {key};
        FetchOne(key, staleOnly, now);
        forall k | k in ran
          ensures FetchRanAt(old(View(k)), View(k), turn[k].0, turn[k].1, staleOnly, now)
        {
          RanStays(old(View(k)), before[k], ran[k].0, ran[k].1, next, fetches, staleOnly, now);
        }
      }
      forall k | k in keys
        ensures FetchRan(old(View(k)), View(k), staleOnly, now)
      {
        assert FetchRanAt(old(View(k)), View(k), turn[k].0, turn[k].1, staleOnly, now);
      }
    }

    method MarkPrefix(prefix: QueryKey)
      requires Owned()
      modifies this`meta
      ensures Owned()
      ensures forall k :: View(k) == if StartsWith(k, prefix) then Marked(old(View(k))) else old(View(k))
    {
      meta := map k | k in meta :: if StartsWith(k, prefix) then meta[k].(invalidated := true) else meta[k];
    }

    /** Marks every entry under `prefix` stale, then fetches the observed ones. */
    method InvalidatePrefix(prefix: QueryKey, now: nat)
      requires Valid()
      modifies this
      ensures Valid()
      ensures forall k :: if prefix <= k then Ran(old(View(k)), View(k), Invalidated, now)
                          else View(k) == At(old(View(k)), next, fetches)
    {
      var observed := set k | k in meta && StartsWith(k, prefix) && meta[k].known != {};
      MarkPrefix(prefix);
      FetchEach(observed, false, now);
      forall k
        ensures Inv(View(k))
        ensures if StartsWith(k, prefix) then Ran(old(View(k)), View(k), Invalidated, now)
                else View(k) == At(old(View(k)), next, fetches)
      {
        if StartsWith(k, prefix) {
          InvalidateRan(old(View(k)), View(k), k in observed, now);
        } else {
          Later(old(View(k)), next, fetches);
        }
      }
    }

    /** Focus or the network returned: the observed stale queries whose policy says so are fetched. */
    method RevalidateWhere(focus: bool, now: nat)
      requires Valid()
      modifies this
      ensures Valid()
      ensures forall k :: k in old(meta) ==>
        var options := old(meta)[k].options;
        Ran(old(View(k)), View(k), Returned(if focus then options.onFocus else options.onReconnect), now)
      ensures forall k :: k !in old(meta) ==> Ran(old(View(k)), View(k), Returned(false), now)
    {
      var keys := set k | k in meta && meta[k].known != {}
                          && (if focus then meta[k].options.onFocus else meta[k].options.onReconnect);
      FetchEach(keys, true, now);
      forall k
        ensures Inv(View(k))
        ensures Ran(old(View(k)), View(k), Returned(Applies(old(View(k)), focus)), now)
      {
        RevalidateRan(old(View(k)), View(k), k in keys, Applies(old(View(k)), focus), now);
      }
    }

    method SetData(key: QueryKey, data: V, now: nat)
      requires Valid()
      modifies this
      ensures Valid()
      ensures View(key) == Step(old(View(key)), Written(data), now) && OnlyKey(key)
    {
      PutSlot(key, SlotAt(key).(data := Some(data)));
      KeepsValid(imap k: QueryKey | true :: old(View(k)), key, Written(data), now);
    }

    method Stale(key: QueryKey, now: nat) returns (stale: bool)
      ensures stale == IsStale(View(key), now)
    {
      if key !in meta {
        return false;
      }
      var at := meta[key].fetchedAt;
      stale := SlotAt(key).data.None? || meta[key].invalidated || at.None?
               || (if now < at.value then 0 else now - at.value) >= meta[key].options.stale;
    }
  }

  /** The invariant does not depend on what other keys did to the counters. */
  lemma Later<V>(s: KeyState<V>, next: nat, fetches: nat)
    requires Inv(s) && s.next <= next
    ensures Inv(s.(next := next, fetches := fetches))
  {
    PendingStays(s, s.(next := next, fetches := fetches));
  }
}
