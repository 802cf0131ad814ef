/** One cached query, as one-thread steps: counted observers, at most one fetch in flight,
    and retention (crates/rustnative-data/src/query.rs). A step is the code a task, a render
    or a drop runs between two awaits; a spawned task is only enqueued, and a cancelled one
    takes no further step. Every step reaches one key's state only, so this module follows
    one key; QueryClients puts the keys together. */
module QueryCache {
  import opened Wrappers

  type ComponentId = nat

  datatype Options = Options(
    stale: nat, retries: nat, onMount: bool, onFocus: bool, onReconnect: bool,
    interval: Option<nat>, paged: bool)

  datatype Slot<V> = Slot(data: Option<V>, error: Option<string>, fetching: bool, loadingMore: bool)

  /** The bookkeeping behind one cached query; tasks are named by number. */
  datatype Meta = Meta(
    options: Options, fetchedAt: Option<nat>, invalidated: bool,
    observers: map<ComponentId, nat>, known: set<ComponentId>,
    task: Option<nat>, interval: Option<nat>, retention: Option<nat>)

  /** A live task: an observer's settling, a fetch, an interval's polling, or a retention timer. */
  datatype Work =
    | Settle(id: ComponentId)
    | Fetch(more: bool, attempt: nat, retries: nat)
    | Poll
    | Retain

  /** One key's entry, slot and live tasks. `handles` counts the live observers each
      component holds, `next` numbers the next task and `fetches` counts the fetches begun. */
  datatype KeyState<V> = KeyState(
    meta: Option<Meta>, slot: Option<Slot<V>>, works: map<nat, Work>,
    handles: map<ComponentId, nat>, next: nat, fetches: nat)

  datatype QueryState<V> = Loading | Empty | Failure(message: string) | Success(data: V) | Refreshing(data: V)

  function Count(counts: map<ComponentId, nat>, id: ComponentId): nat {
    if id in counts then counts[id] else 0
  }

  function SlotOf<V>(s: KeyState<V>): Slot<V> {
    if s.slot.Some? then s.slot.value else Slot(None, None, false, false)
  }

  /** What a component sees; `isEmpty` is the query's own test of the cached value. */
  function StateOf<V>(slot: Option<Slot<V>>, isEmpty: bool): QueryState<V> {
    match slot
    case None => Loading
    case Some(slot) =>
      match (slot.data, slot.error)
      case (Some(data), _) =>
        if slot.fetching then Refreshing(data) else if isEmpty then Empty else Success(data)
      case (None, Some(error)) => if slot.fetching then Loading else Failure(error)
      case (None, None) => Loading
  }

  // ---------------------------------------------------------------------
  // The steps
  // ---------------------------------------------------------------------

  function Spawn<V>(s: KeyState<V>, work: Work): KeyState<V> {
    s.(works := s.works[s.next := work], next := s.next + 1)
  }

  function Cancel<V>(s: KeyState<V>, task: Option<nat>): KeyState<V> {
    if task.Some? then s.(works := s.works - {task.value}) else s
  }

  function SetMeta<V>(s: KeyState<V>, meta: Meta): KeyState<V> {
    s.(meta := Some(meta))
  }

  /** Deduplicated: nothing starts while the key has a task. `hasNext` says whether the cached
      pages have a next one. */
  function StartFetch<V>(s: KeyState<V>, more: bool, hasNext: bool): KeyState<V> {
    if s.meta.None? || s.meta.value.task.Some? then s
    else if more && !(s.meta.value.options.paged && SlotOf(s).data.Some? && hasNext) then s
    else
      var slot := if more then SlotOf(s).(loadingMore := true) else SlotOf(s).(fetching := true);
      SetMeta(Spawn(s, Fetch(more, 0, s.meta.value.options.retries)), s.meta.value.(task := Some(s.next)))
        .(slot := Some(slot), fetches := s.fetches + 1)
  }

  predicate IsStale<V>(s: KeyState<V>, now: nat) {
    && s.meta.Some?
    && (|| SlotOf(s).data.None?
        || s.meta.value.invalidated
        || s.meta.value.fetchedAt.None?
        || now - s.meta.value.fetchedAt.value >= s.meta.value.options.stale
        || s.meta.value.options.stale == 0)
  }

  function NewMeta(options: Options): Meta {
    Meta(options, None, false, map[], {}, None, None, None)
  }

  /** A component started observing: fetch what it needs, and poll if the query says so. */
  function Mounted<V>(s: KeyState<V>, now: nat): KeyState<V>
    requires s.meta.Some?
  {
    var options := s.meta.value.options;
    var fetched :=
      if (SlotOf(s).data.None? || options.onMount) && IsStale(s, now) then StartFetch(s, false, false) else s;
    if options.interval.Some? && s.meta.value.interval.None? then
      SetMeta(Spawn(fetched, Poll), fetched.meta.value.(interval := Some(fetched.next)))
    else fetched
  }

  /** Counts one more handle of component `id`, and stops the retention timer. */
  function Observe<V>(s: KeyState<V>, id: ComponentId, options: Options): KeyState<V> {
    var meta := if s.meta.Some? then s.meta.value else NewMeta(options);
    var counted := meta.(
      options := options,
      retention := None,
      observers := meta.observers[id := Count(meta.observers, id) + 1],
      known := meta.known + {id});
    SetMeta(Cancel(s, meta.retention), counted).(handles := s.handles[id := Count(s.handles, id) + 1])
  }

  function UseQuery<V>(s: KeyState<V>, id: ComponentId, options: Options, now: nat): KeyState<V> {
    if s.meta.Some? && id in s.meta.value.known then Observe(s, id, options)
    else Mounted(Observe(s, id, options), now)
  }

  /** A selection holding an observer of component `id` is dropped. */
  function DropHandle<V>(s: KeyState<V>, id: ComponentId): KeyState<V>
    requires Count(s.handles, id) > 0
  {
    var dropped := s.(handles := s.handles[id := s.handles[id] - 1]);
    if s.meta.None? || id !in s.meta.value.observers then dropped
    else
      var observers := s.meta.value.observers;
      var count := if observers[id] == 0 then 0 else observers[id] - 1;
      var counted := SetMeta(dropped, s.meta.value.(observers := observers[id := count]));
      if count == 0 then Spawn(counted, Settle(id)) else counted
  }

  function ScheduleRetention<V>(s: KeyState<V>): KeyState<V> {
    if s.meta.None? then s
    else
      SetMeta(Cancel(Spawn(s, Retain), s.meta.value.retention), s.meta.value.(retention := Some(s.next)))
  }

  /** Decides, after the render that dropped it, whether a component still observes. */
  function SettleObserver<V>(s: KeyState<V>, task: nat): KeyState<V>
    requires task in s.works && s.works[task].Settle?
  {
    var id := s.works[task].id;
    var ended := s.(works := s.works - {task});
    if s.meta.None? || Count(s.meta.value.observers, id) > 0 then ended
    else
      var meta := s.meta.value.(observers := s.meta.value.observers - {id}, known := s.meta.value.known - {id});
      if meta.known != {} then SetMeta(ended, meta)
      else ScheduleRetention(StopFetching(SetMeta(ended, meta)))
  }

  /** Nobody wants the key: its fetch and its poll are cancelled. */
  function StopFetching<V>(s: KeyState<V>): KeyState<V>
    requires s.meta.Some?
  {
    var meta := s.meta.value;
    SetMeta(Cancel(Cancel(s, meta.task), meta.interval), meta.(task := None, interval := None))
      .(slot := Some(SlotOf(s).(fetching := false, loadingMore := false)))
  }

  function Collect<V>(s: KeyState<V>, task: nat): KeyState<V>
    requires task in s.works && s.works[task].Retain?
  {
    var ended := s.(works := s.works - {task});
    if s.meta.Some? && s.meta.value.known == {} && s.meta.value.task.None? then
      ended.(meta := None, slot := None)
    else ended
  }

  /** A fetch ended with `outcome`; an equal result keeps the cached value's identity, so
      `same` compares values. */
  function SettleFetch<V>(s: KeyState<V>, task: nat, outcome: Result<V, string>, same: bool, now: nat): KeyState<V>
    requires task in s.works && s.works[task].Fetch?
  {
    var ended := s.(works := s.works - {task});
    if s.meta.None? then ended
    else
      var meta := s.meta.value.(task := None);
      var slot := SlotOf(s).(fetching := false, loadingMore := false);
      match outcome
      case Ok(data) =>
        SetMeta(ended, meta.(fetchedAt := Some(now), invalidated := false))
          .(slot := Some(slot.(data := if slot.data.Some? && same then slot.data else Some(data), error := None)))
      case Err(error) => SetMeta(ended, meta).(slot := Some(slot.(error := Some(error))))
  }

  /** What a fetch's future gave. */
  datatype Reply<V> = Loaded(data: V) | Failed(message: string, retryable: bool)

  /** One turn of the fetch's loop: a retryable failure with attempts left is tried again, by
      the same task. */
  function Replied<V>(s: KeyState<V>, task: nat, reply: Reply<V>, same: bool, now: nat): KeyState<V>
    requires task in s.works && s.works[task].Fetch?
  {
    var work := s.works[task];
    match reply
    case Loaded(data) => SettleFetch(s, task, Ok(data), same, now)
    case Failed(message, retryable) =>
      if retryable && work.attempt < work.retries then
        s.(works := s.works[task := work.(attempt := work.attempt + 1)])
      else SettleFetch(s, task, Err(message), same, now)
  }

  function Invalidate<V>(s: KeyState<V>): KeyState<V> {
    if s.meta.None? then s
    else
      var marked := SetMeta(s, s.meta.value.(invalidated := true));
      if s.meta.value.known != {} then StartFetch(marked, false, false) else marked
  }

  /** Focus or the network returned, and the entry's policy says (`applies`) what that means. */
  function Revalidate<V>(s: KeyState<V>, applies: bool, now: nat): KeyState<V> {
    if s.meta.Some? && s.meta.value.known != {} && applies && IsStale(s, now) then StartFetch(s, false, false) else s
  }

  function Prefetch<V>(s: KeyState<V>, options: Options, now: nat): KeyState<V> {
    var entered := if s.meta.Some? then s else SetMeta(s, NewMeta(options));
    ScheduleRetention(if IsStale(entered, now) then StartFetch(entered, false, false) else entered)
  }

  function WriteData<V>(s: KeyState<V>, data: V): KeyState<V> {
    s.(slot := Some(SlotOf(s).(data := Some(data))))
  }

  // ---------------------------------------------------------------------
  // What every step keeps
  // ---------------------------------------------------------------------

  /** Tasks are numbered below `next`, and so is what an entry remembers of one. */
  ghost predicate Numbered<V>(s: KeyState<V>) {
    && (forall t :: t in s.works ==> t < s.next)
    && (s.meta.Some? && s.meta.value.retention.Some? ==> s.meta.value.retention.value < s.next)
  }

  /** A fetch is live exactly when the entry's task is set, to that fetch; then one and only
      one of the two flags is set, and otherwise neither is. */
  ghost predicate Fetching<V>(s: KeyState<V>) {
    && (forall t :: t in s.works && s.works[t].Fetch? ==>
          s.meta.Some? && s.meta.value.task == Some(t) && s.works[t].attempt <= s.works[t].retries)
    && if s.meta.Some? && s.meta.value.task.Some? then
         && s.meta.value.task.value in s.works
         && s.works[s.meta.value.task.value].Fetch?
         && SlotOf(s).loadingMore == s.works[s.meta.value.task.value].more
         && SlotOf(s).fetching == !s.works[s.meta.value.task.value].more
       else
         !SlotOf(s).fetching && !SlotOf(s).loadingMore
  }

  /** One poll at most, and only of an observed key. */
  ghost predicate Polling<V>(s: KeyState<V>) {
    && (forall t :: t in s.works && s.works[t].Poll? ==> s.meta.Some? && s.meta.value.interval == Some(t))
    && (s.meta.Some? && s.meta.value.interval.Some? ==>
          && s.meta.value.known != {}
          && s.meta.value.interval.value in s.works && s.works[s.meta.value.interval.value].Poll?)
  }

  /** One retention timer at most; what the entry remembers is a timer, or one that ended. */
  ghost predicate Retaining<V>(s: KeyState<V>) {
    && (forall t :: t in s.works && s.works[t].Retain? ==> s.meta.Some? && s.meta.value.retention == Some(t))
    && (s.meta.Some? && s.meta.value.retention.Some? && s.meta.value.retention.value in s.works ==>
          s.works[s.meta.value.retention.value].Retain?)
  }

  ghost predicate SettlePending<V>(s: KeyState<V>, id: ComponentId) {
    exists t :: t in s.works && s.works[t] == Settle(id)
  }

  /** A component's count is the handles it holds; the known components are the counted ones;
      and a counted component at zero has a settling pending. */
  ghost predicate Observing<V>(s: KeyState<V>) {
    match s.meta
    case None => forall id :: Count(s.handles, id) == 0
    case Some(meta) =>
      && meta.known == meta.observers.Keys
      && (forall id :: Count(s.handles, id) == Count(meta.observers, id))
      && (forall id :: id in meta.observers && meta.observers[id] == 0 ==> SettlePending(s, id))
  }

  ghost predicate Base<V>(s: KeyState<V>) {
    Numbered(s) && Fetching(s) && Polling(s) && Retaining(s) && Observing(s)
  }

  /** An observed key with nothing to show is being fetched. */
  ghost predicate Needing<V>(s: KeyState<V>) {
    s.meta.Some? && s.meta.value.known != {} && SlotOf(s).data.None? && SlotOf(s).error.None? ==>
      s.meta.value.task.Some?
  }

  ghost predicate Inv<V>(s: KeyState<V>) {
    Base(s) && Needing(s)
  }

  lemma PendingStays<V>(s: KeyState<V>, next: KeyState<V>)
    requires forall t :: t in s.works && s.works[t].Settle? ==> t in next.works && next.works[t] == s.works[t]
    ensures forall id :: SettlePending(s, id) ==> SettlePending(next, id)
  {
    forall id | SettlePending(s, id)
      ensures SettlePending(next, id)
    {
      var t :| t in s.works && s.works[t] == Settle(id);
      assert next.works[t] == Settle(id);
    }
  }

  lemma StartFetchKeeps<V>(s: KeyState<V>, more: bool, hasNext: bool)
    requires Base(s)
    ensures Base(StartFetch(s, more, hasNext))
    ensures Needing(s) || !more ==> Needing(StartFetch(s, more, hasNext))
  {
    var next := StartFetch(s, more, hasNext);
    if next != s {
      assert forall t :: t in s.works ==> next.works[t] == s.works[t];
      assert next.works[s.next].Fetch?;
      PendingStays(s, next);
    }
  }

  lemma ScheduleRetentionKeeps<V>(s: KeyState<V>)
    requires Base(s)
    ensures Base(ScheduleRetention(s))
    ensures Needing(s) ==> Needing(ScheduleRetention(s))
  {
    var next := ScheduleRetention(s);
    if s.meta.Some? {
      RetainSpawned(s);
      PendingStays(s, next);
    }
  }

  /** Only the timer before it ends, and only the new one begins. */
  lemma RetainSpawned<V>(s: KeyState<V>)
    requires Numbered(s) && s.meta.Some?
    ensures var next := ScheduleRetention(s);
      && s.next in next.works && next.works[s.next] == Retain
      && (forall t :: t in next.works && t != s.next ==> t in s.works && next.works[t] == s.works[t])
      && (forall t :: t in s.works && s.meta.value.retention != Some(t) ==>
            t in next.works && next.works[t] == s.works[t])
  {
  }

  lemma PollKeeps<V>(s: KeyState<V>)
    requires Base(s) && s.meta.Some? && s.meta.value.known != {} && s.meta.value.interval.None?
    ensures Base(SetMeta(Spawn(s, Poll), s.meta.value.(interval := Some(s.next))))
  {
    var next := SetMeta(Spawn(s, Poll), s.meta.value.(interval := Some(s.next)));
    assert forall t :: t in s.works ==> next.works[t] == s.works[t];
    assert next.works[s.next] == Poll;
    PendingStays(s, next);
  }

  lemma MountedKeeps<V>(s: KeyState<V>, now: nat)
    requires Base(s) && s.meta.Some? && s.meta.value.known != {}
    ensures Base(Mounted(s, now)) && Needing(Mounted(s, now))
  {
    StartFetchKeeps(s, false, false);
    var fetched :=
      if (SlotOf(s).data.None? || s.meta.value.options.onMount) && IsStale(s, now) then StartFetch(s, false, false)
      else s;
    if fetched.meta.value.interval.None? {
      PollKeeps(fetched);
    }
  }

  lemma ObserveKeepsTasks<V>(s: KeyState<V>, id: ComponentId, options: Options)
    requires Base(s)
    ensures var next := Observe(s, id, options);
      Numbered(next) && Fetching(next) && Polling(next) && Retaining(next)
  {
  }

  lemma ObserveKeepsCounts<V>(s: KeyState<V>, id: ComponentId, options: Options)
    requires Base(s)
    ensures Observing(Observe(s, id, options))
  {
    var next := Observe(s, id, options);
    PendingStays(s, next);
    forall i
      ensures Count(next.handles, i) == Count(next.meta.value.observers, i)
    {
      assert Count(s.handles, i) == Count(if s.meta.Some? then s.meta.value.observers else map[], i);
      assert Count(s.handles, id) == Count(if s.meta.Some? then s.meta.value.observers else map[], id);
    }
  }

  lemma UseQueryKeeps<V>(s: KeyState<V>, id: ComponentId, options: Options, now: nat)
    requires Inv(s)
    ensures Inv(UseQuery(s, id, options, now))
  {
    ObserveKeepsTasks(s, id, options);
    ObserveKeepsCounts(s, id, options);
    MountedKeeps(Observe(s, id, options), now);
  }

  lemma DropHandleKeeps<V>(s: KeyState<V>, id: ComponentId)
    requires Inv(s) && Count(s.handles, id) > 0
    ensures Inv(DropHandle(s, id))
  {
    var next := DropHandle(s, id);
    assert Count(s.meta.value.observers, id) == Count(s.handles, id);
    assert forall t :: t in s.works ==> t in next.works && next.works[t] == s.works[t];
    assert s.handles[id] == 1 ==> next.works[s.next] == Settle(id);
    PendingStays(s, next);
    forall i
      ensures Count(next.handles, i) == Count(next.meta.value.observers, i)
    {
      assert Count(s.handles, i) == Count(s.meta.value.observers, i);
    }
  }

  /** A counted-out component leaves: its settling ended, and nothing counts it any more. */
  function Left<V>(s: KeyState<V>, task: nat, id: ComponentId): KeyState<V>
    requires s.meta.Some?
  {
    var meta := s.meta.value;
    SetMeta(s.(works := s.works - {task}), meta.(observers := meta.observers - {id}, known := meta.known - {id}))
  }

  lemma LeftKeeps<V>(s: KeyState<V>, task: nat, id: ComponentId)
    requires Inv(s) && s.meta.Some? && task in s.works && s.works[task] == Settle(id)
    requires Count(s.meta.value.observers, id) == 0
    ensures Numbered(Left(s, task, id)) && Fetching(Left(s, task, id)) && Retaining(Left(s, task, id))
    ensures Observing(Left(s, task, id)) && Needing(Left(s, task, id))
    ensures Left(s, task, id).meta.value.known != {} ==> Polling(Left(s, task, id))
  {
    var next := Left(s, task, id);
    forall i | i != id && SettlePending(s, i)
      ensures SettlePending(next, i)
    {
      var t :| t in s.works && s.works[t] == Settle(i);
      assert next.works[t] == Settle(i);
    }
  }

  lemma StopFetchingKeeps<V>(s: KeyState<V>)
    requires Numbered(s) && Fetching(s) && Retaining(s) && Observing(s)
    requires s.meta.Some? && s.meta.value.known == {}
    requires forall t :: t in s.works && s.works[t].Poll? ==> s.meta.value.interval == Some(t)
    requires s.meta.value.interval.Some? ==>
      s.meta.value.interval.value in s.works && s.works[s.meta.value.interval.value].Poll?
    ensures Inv(StopFetching(s))
  {
    PendingStays(s, StopFetching(s));
  }

  lemma SettleObserverKeeps<V>(s: KeyState<V>, task: nat)
    requires Inv(s) && task in s.works && s.works[task].Settle?
    ensures Inv(SettleObserver(s, task))
  {
    var id := s.works[task].id;
    if s.meta.Some? && Count(s.meta.value.observers, id) == 0 {
      var left := Left(s, task, id);
      LeftKeeps(s, task, id);
      if left.meta.value.known == {} {
        StopFetchingKeeps(left);
        ScheduleRetentionKeeps(StopFetching(left));
      }
    } else {
      EndedKeeps(s, task);
    }
  }

  lemma EndedKeeps<V>(s: KeyState<V>, task: nat)
    requires Inv(s) && task in s.works && s.works[task].Settle?
    requires s.meta.Some? ==> Count(s.meta.value.observers, s.works[task].id) > 0
    ensures Inv(s.(works := s.works - {task}))
  {
    var next := s.(works := s.works - {task});
    forall i | i != s.works[task].id && SettlePending(s, i)
      ensures SettlePending(next, i)
    {
      var t :| t in s.works && s.works[t] == Settle(i);
      assert next.works[t] == Settle(i);
    }
  }

  lemma CollectKeeps<V>(s: KeyState<V>, task: nat)
    requires Inv(s) && task in s.works && s.works[task].Retain?
    ensures Inv(Collect(s, task))
  {
    var next := Collect(s, task);
    PendingStays(s, next);
  }

  lemma SettleFetchKeeps<V>(s: KeyState<V>, task: nat, outcome: Result<V, string>, same: bool, now: nat)
    requires Inv(s) && task in s.works && s.works[task].Fetch?
    ensures Inv(SettleFetch(s, task, outcome, same, now))
  {
    var next := SettleFetch(s, task, outcome, same, now);
    PendingStays(s, next);
  }

  lemma RepliedKeeps<V>(s: KeyState<V>, task: nat, reply: Reply<V>, same: bool, now: nat)
    requires Inv(s) && task in s.works && s.works[task].Fetch?
    ensures Inv(Replied(s, task, reply, same, now))
  {
    var work, next := s.works[task], Replied(s, task, reply, same, now);
    if reply.Failed? && reply.retryable && work.attempt < work.retries {
      assert forall t :: t in s.works && t != task ==> next.works[t] == s.works[t];
      PendingStays(s, next);
    } else {
      SettleFetchKeeps(s, task, if reply.Loaded? then Ok(reply.data) else Err(reply.message), same, now);
    }
  }

  lemma InvalidateKeeps<V>(s: KeyState<V>)
    requires Inv(s)
    ensures Inv(Invalidate(s))
  {
    if s.meta.Some? {
      var marked := SetMeta(s, s.meta.value.(invalidated := true));
      PendingStays(s, marked);
      assert Inv(marked);
      StartFetchKeeps(marked, false, false);
    }
  }

  lemma PrefetchKeeps<V>(s: KeyState<V>, options: Options, now: nat)
    requires Inv(s)
    ensures Inv(Prefetch(s, options, now))
  {
    var entered := if s.meta.Some? then s else SetMeta(s, NewMeta(options));
    PendingStays(s, entered);
    assert Inv(entered);
    StartFetchKeeps(entered, false, false);
    ScheduleRetentionKeeps(if IsStale(entered, now) then StartFetch(entered, false, false) else entered);
  }

  lemma WriteDataKeeps<V>(s: KeyState<V>, data: V)
    requires Inv(s)
    ensures Inv(WriteData(s, data))
  {
    PendingStays(s, WriteData(s, data));
  }

  // ---------------------------------------------------------------------
  // Runs
  // ---------------------------------------------------------------------

  /** What a render, a drop, the application, or a live task does next. */
  datatype Event<V> =
    | Render(id: ComponentId, options: Options)
    | Drop(id: ComponentId)
    | RunSettle(task: nat)
    | RunRetain(task: nat)
    | RunPoll(task: nat)
    | FetchReply(task: nat, reply: Reply<V>, same: bool)
    | NextPage(hasNext: bool)
    | Invalidated
    | Returned(applies: bool)
    | Prefetched(options: Options)
    | Written(data: V)

  predicate Enabled<V>(s: KeyState<V>, event: Event<V>) {
    match event
    case Drop(id) => Count(s.handles, id) > 0
    case RunSettle(task) => task in s.works && s.works[task].Settle?
    case RunRetain(task) => task in s.works && s.works[task].Retain?
    case RunPoll(task) => task in s.works && s.works[task].Poll?
    case FetchReply(task, _, _) => task in s.works && s.works[task].Fetch?
    case _ => true
  }

  function Step<V>(s: KeyState<V>, event: Event<V>, now: nat): KeyState<V>
    requires Enabled(s, event)
  {
    match event
    case Render(id, options) => UseQuery(s, id, options, now)
    case Drop(id) => DropHandle(s, id)
    case RunSettle(task) => SettleObserver(s, task)
    case RunRetain(task) => Collect(s, task)
    case RunPoll(_) => StartFetch(s, false, false)
    case FetchReply(task, reply, same) => Replied(s, task, reply, same, now)
    case NextPage(hasNext) => StartFetch(s, true, hasNext)
    case Invalidated => Invalidate(s)
    case Returned(applies) => Revalidate(s, applies, now)
    case Prefetched(options) => Prefetch(s, options, now)
    case Written(data) => WriteData(s, data)
  }

  lemma StepKeeps<V>(s: KeyState<V>, event: Event<V>, now: nat)
    requires Inv(s) && Enabled(s, event)
    ensures Inv(Step(s, event, now))
  {
    match event
    case Render(id, options) => UseQueryKeeps(s, id, options, now);
    case Drop(id) => DropHandleKeeps(s, id);
    case RunSettle(task) => SettleObserverKeeps(s, task);
    case RunRetain(task) => CollectKeeps(s, task);
    case RunPoll(_) => StartFetchKeeps(s, false, false);
    case FetchReply(task, reply, same) => RepliedKeeps(s, task, reply, same, now);
    case NextPage(hasNext) => StartFetchKeeps(s, true, hasNext);
    case Invalidated => InvalidateKeeps(s);
    case Returned(_) => StartFetchKeeps(s, false, false);
    case Prefetched(options) => PrefetchKeeps(s, options, now);
    case Written(data) => WriteDataKeeps(s, data);
  }

  /** An event, and the clock when it happens. */
  datatype Turn<V> = Turn(event: Event<V>, now: nat)

  predicate CanRun<V>(s: KeyState<V>, run: seq<Turn<V>>)
    decreases |run|
  {
    run == [] || (Enabled(s, run[0].event) && CanRun(Step(s, run[0].event, run[0].now), run[1..]))
  }

  function Run<V>(s: KeyState<V>, run: seq<Turn<V>>): KeyState<V>
    requires CanRun(s, run)
    decreases |run|
  {
    if run == [] then s else Run(Step(s, run[0].event, run[0].now), run[1..])
  }

  lemma {:induction false} RunKeeps<V>(s: KeyState<V>, run: seq<Turn<V>>)
    requires Inv(s) && CanRun(s, run)
    ensures Inv(Run(s, run))
    decreases |run|
  {
    if run != [] {
      StepKeeps(s, run[0].event, run[0].now);
      RunKeeps(Step(s, run[0].event, run[0].now), run[1..]);
    }
  }

  /** A key nobody asked for yet; other keys may have used some task numbers. */
  function Unused<V>(next: nat, fetches: nat): KeyState<V> {
    KeyState(None, None, map[], map[], next, fetches)
  }

  ghost function Fetches<V>(s: KeyState<V>): set<nat> {
    set t | t in s.works && s.works[t].Fetch?
  }

  /** Over every interleaving of renders, drops, settlings, timers and fetches: a live fetch
      is the entry's task, so there is at most one, and exactly one flag says which kind. */
  lemma OneFetch<V>(next: nat, fetches: nat, run: seq<Turn<V>>)
    requires CanRun(Unused<V>(next, fetches), run)
    ensures var s := Run(Unused<V>(next, fetches), run);
      && (if s.meta.Some? && s.meta.value.task.Some? then Fetches(s) == {s.meta.value.task.value} else Fetches(s) == {})
      && (Fetches(s) != {} <==> SlotOf(s).fetching || SlotOf(s).loadingMore)
      && !(SlotOf(s).fetching && SlotOf(s).loadingMore)
      && forall t :: t in Fetches(s) ==> s.works[t].attempt <= s.works[t].retries
  {
    RunKeeps(Unused<V>(next, fetches), run);
  }

  /** Over every interleaving: the entry counts exactly the live handles, knows exactly the
      counted components, and will settle each one at zero. */
  lemma ObserversCounted<V>(next: nat, fetches: nat, run: seq<Turn<V>>, id: ComponentId)
    requires CanRun(Unused<V>(next, fetches), run)
    ensures var s := Run(Unused<V>(next, fetches), run);
      && (s.meta.None? ==> Count(s.handles, id) == 0)
      && (s.meta.Some? ==>
            && Count(s.meta.value.observers, id) == Count(s.handles, id)
            && (id in s.meta.value.known <==> id in s.meta.value.observers)
            && (id in s.meta.value.known && Count(s.handles, id) == 0 ==> SettlePending(s, id)))
  {
    RunKeeps(Unused<V>(next, fetches), run);
    var s := Run(Unused<V>(next, fetches), run);
    if s.meta.Some? {
      assert Count(s.handles, id) == Count(s.meta.value.observers, id);
    }
  }

  /** Whatever happens next, an entry a live handle observes is not collected. */
  lemma ObservedNotCollected<V>(next: nat, fetches: nat, run: seq<Turn<V>>, id: ComponentId, turn: Turn<V>)
    requires CanRun(Unused<V>(next, fetches), run)
    requires Enabled(Run(Unused<V>(next, fetches), run), turn.event)
    requires Count(Run(Unused<V>(next, fetches), run).handles, id) > 0
    ensures Run(Unused<V>(next, fetches), run).meta.Some?
    ensures Step(Run(Unused<V>(next, fetches), run), turn.event, turn.now).meta.Some?
  {
    RunKeeps(Unused<V>(next, fetches), run);
    StepKeepsObserved(Run(Unused<V>(next, fetches), run), id, turn.event, turn.now);
  }

  lemma StepKeepsObserved<V>(s: KeyState<V>, id: ComponentId, event: Event<V>, now: nat)
    requires Inv(s) && Enabled(s, event) && Count(s.handles, id) > 0
    ensures s.meta.Some? && Step(s, event, now).meta.Some?
  {
    assert Count(s.handles, id) == if s.meta.Some? then Count(s.meta.value.observers, id) else 0;
  }

  /** A component that is shown Loading or Refreshing is never left waiting: exactly one fetch runs. */
  lemma ShownLoadingIsFetched<V>(next: nat, fetches: nat, run: seq<Turn<V>>, id: ComponentId, isEmpty: bool)
    requires CanRun(Unused<V>(next, fetches), run)
    requires Count(Run(Unused<V>(next, fetches), run).handles, id) > 0
    requires var shown := StateOf(Run(Unused<V>(next, fetches), run).slot, isEmpty); shown.Loading? || shown.Refreshing?
    ensures exists t :: Fetches(Run(Unused<V>(next, fetches), run)) == {t}
  {
    var s := Run(Unused<V>(next, fetches), run);
    RunKeeps(Unused<V>(next, fetches), run);
    assert Count(s.handles, id) == if s.meta.Some? then Count(s.meta.value.observers, id) else 0;
    OneFetch(next, fetches, run);
    assert Fetches(s) == {s.meta.value.task.value};
  }

  /** The entry holds `data`, fetched at `at`; `marked` says whether it was invalidated since. */
  predicate Holding<V(==)>(s: KeyState<V>, data: V, at: nat, marked: bool) {
    && s.meta.Some? && s.slot.Some?
    && s.slot.value.data == Some(data)
    && s.meta.value.fetchedAt == Some(at)
    && s.meta.value.invalidated == marked
  }

  /** The event gives the entry another value, or removes it: a fetch that loads, a write, or a
      retention timer on an entry nobody observes or fetches. */
  predicate Replaces<V>(s: KeyState<V>, event: Event<V>) {
    match event
    case FetchReply(_, reply, _) => reply.Loaded?
    case Written(_) => true
    case RunRetain(_) => s.meta.Some? && s.meta.value.known == {} && s.meta.value.task.None?
    case _ => false
  }

  lemma StepHolds<V>(s: KeyState<V>, event: Event<V>, now: nat, data: V, at: nat, marked: bool)
    requires Enabled(s, event) && Holding(s, data, at, marked) && !Replaces(s, event)
    ensures Holding(Step(s, event, now), data, at, marked || event.Invalidated?)
  {
    match event
    case Render(id, options) => assert Holding(Observe(s, id, options), data, at, marked);
    case RunSettle(task) => SettlingHolds(s, task, data, at, marked);
    case _ =>
  }

  lemma SettlingHolds<V>(s: KeyState<V>, task: nat, data: V, at: nat, marked: bool)
    requires task in s.works && s.works[task].Settle? && Holding(s, data, at, marked)
    ensures Holding(SettleObserver(s, task), data, at, marked)
  {
  }

  predicate NeverReplaced<V>(s: KeyState<V>, run: seq<Turn<V>>)
    requires CanRun(s, run)
    decreases |run|
  {
    run != [] ==>
      !Replaces(s, run[0].event) && NeverReplaced(Step(s, run[0].event, run[0].now), run[1..])
  }

  predicate Invalidates<V>(run: seq<Turn<V>>) {
    run != [] && (run[0].event.Invalidated? || Invalidates(run[1..]))
  }

  lemma {:induction false} RunHolds<V>(s: KeyState<V>, run: seq<Turn<V>>, data: V, at: nat, marked: bool)
    requires CanRun(s, run) && NeverReplaced(s, run) && Holding(s, data, at, marked)
    ensures Holding(Run(s, run), data, at, marked || Invalidates(run))
    decreases |run|
  {
    if run != [] {
      StepHolds(s, run[0].event, run[0].now, data, at, marked);
      RunHolds(Step(s, run[0].event, run[0].now), run[1..], data, at, marked || run[0].event.Invalidated?);
    }
  }

  /** What a fetch loaded at `now` is shown until another value replaces it, through any renders,
      drops, polls, failures and invalidations, and never as a failure or as nothing yet; and until
      then it is stale exactly when it was invalidated since or its stale time has passed. When the
      loaded value equals the cached one, that is kept. */
  lemma LoadedStaysShown<V>(s: KeyState<V>, task: nat, loaded: V, same: bool, now: nat, run: seq<Turn<V>>,
                            isEmpty: bool, later: nat)
    requires Inv(s) && task in s.works && s.works[task].Fetch?
    requires CanRun(SettleFetch(s, task, Ok(loaded), same, now), run)
    requires NeverReplaced(SettleFetch(s, task, Ok(loaded), same, now), run)
    ensures var data := if same && SlotOf(s).data.Some? then SlotOf(s).data.value else loaded;
      var end := Run(SettleFetch(s, task, Ok(loaded), same, now), run);
      && end.meta.Some?
      && StateOf(end.slot, isEmpty)
         == (if SlotOf(end).fetching then Refreshing(data) else if isEmpty then Empty else Success(data))
      && (IsStale(end, later) <==>
            || Invalidates(run)
            || end.meta.value.options.stale == 0 || later - now >= end.meta.value.options.stale)
  {
    var data := if same && SlotOf(s).data.Some? then SlotOf(s).data.value else loaded;
    RunHolds(SettleFetch(s, task, Ok(loaded), same, now), run, data, now, false);
  }

  /** The entry has nothing but the failure of its last fetch, and no fetch. */
  predicate Failing<V>(s: KeyState<V>, error: string) {
    && s.meta.Some? && s.meta.value.task.None?
    && s.slot.Some? && s.slot.value.data.None? && s.slot.value.error == Some(error) && !s.slot.value.fetching
  }

  lemma StepFails<V>(s: KeyState<V>, event: Event<V>, now: nat, error: string)
    requires Inv(s) && Enabled(s, event) && Failing(s, error)
    requires !Replaces(s, event) && Step(s, event, now).fetches == s.fetches
    ensures Failing(Step(s, event, now), error)
  {
    match event
    case Render(id, options) =>
      assert Failing(Observe(s, id, options), error) && Observe(s, id, options).fetches == s.fetches;
    case _ =>
  }

  /** Nothing replaces the entry and no fetch of it begins. */
  predicate NothingTried<V>(s: KeyState<V>, run: seq<Turn<V>>)
    requires CanRun(s, run)
    decreases |run|
  {
    run != [] ==>
      var next := Step(s, run[0].event, run[0].now);
      !Replaces(s, run[0].event) && next.fetches == s.fetches && NothingTried(next, run[1..])
  }

  /** A fetch that fails with nothing loaded before shows its failure until another is tried or a
      value comes from elsewhere. */
  lemma FailureIsShown<V>(s: KeyState<V>, task: nat, error: string, same: bool, now: nat, run: seq<Turn<V>>,
                          isEmpty: bool)
    requires Inv(s) && task in s.works && s.works[task].Fetch? && SlotOf(s).data.None?
    requires CanRun(SettleFetch(s, task, Err(error), same, now), run)
    requires NothingTried(SettleFetch(s, task, Err(error), same, now), run)
    ensures StateOf(Run(SettleFetch(s, task, Err(error), same, now), run).slot, isEmpty) == Failure(error)
  {
    var next := SettleFetch(s, task, Err(error), same, now);
    SettleFetchKeeps(s, task, Err(error), same, now);
    assert Failing(next, error);
    FailureStaysShown(next, run, error, isEmpty);
  }

  lemma {:induction false} FailureStaysShown<V>(s: KeyState<V>, run: seq<Turn<V>>, error: string, isEmpty: bool)
    requires Inv(s) && Failing(s, error) && CanRun(s, run) && NothingTried(s, run)
    ensures StateOf(Run(s, run).slot, isEmpty) == Failure(error)
    decreases |run|
  {
    if run != [] {
      StepKeeps(s, run[0].event, run[0].now);
      StepFails(s, run[0].event, run[0].now, error);
      FailureStaysShown(Step(s, run[0].event, run[0].now), run[1..], error, isEmpty);
    }
  }

  /** Invalidating makes the entry stale, and fetches it at once when it is observed. */
  lemma InvalidatedIsStale<V>(s: KeyState<V>, now: nat)
    requires Inv(s) && s.meta.Some?
    ensures IsStale(Invalidate(s), now)
    ensures s.meta.value.known != {} ==> Busy(Invalidate(s))
  {
  }

  /** A step begins at most one fetch, and none while one is in flight. */
  lemma BeginsAtMostOne<V>(s: KeyState<V>, event: Event<V>, now: nat)
    requires Inv(s) && Enabled(s, event)
    ensures s.fetches <= Step(s, event, now).fetches <= s.fetches + 1
    ensures Fetches(s) != {} ==> Step(s, event, now).fetches == s.fetches
  {
    StepBeginsAsAsked(s, event, now);
  }

  predicate Busy<V>(s: KeyState<V>) {
    s.meta.Some? && s.meta.value.task.Some?
  }

  // ---------------------------------------------------------------------
  // What each event does, exactly
  // ---------------------------------------------------------------------

  /** The entry was invalidated, or its value was never fetched or is `stale` old at `now`. */
  predicate Old<V>(s: KeyState<V>, stale: nat, now: nat) {
    match s.meta
    case None => true
    case Some(meta) =>
      meta.invalidated
      || match meta.fetchedAt
         case None => true
         case Some(at) => at + stale <= now || stale == 0
  }

  predicate Observed<V>(s: KeyState<V>, id: ComponentId) {
    s.meta.Some? && id in s.meta.value.known
  }

  predicate AnyObserver<V>(s: KeyState<V>) {
    s.meta.Some? && s.meta.value.known != {}
  }

  predicate HasData<V>(s: KeyState<V>) {
    s.slot.Some? && s.slot.value.data.Some?
  }

  /** What asks for a fetch. A component that starts observing does when there is no value, or an old
      one and the query says to fetch on mounting; a poll always; the next page when there is one; an
      invalidation when somebody observes; the return of focus or network when somebody observes an
      old value or none, and the query says so; and prefetching what is old or absent. */
  predicate AsksForFetch<V>(s: KeyState<V>, event: Event<V>, now: nat) {
    match event
    case Render(id, options) =>
      !Observed(s, id) && (!HasData(s) || (options.onMount && Old(s, options.stale, now)))
    case RunPoll(_) => true
    case NextPage(hasNext) => s.meta.Some? && s.meta.value.options.paged && HasData(s) && hasNext
    case Invalidated => AnyObserver(s)
    case Returned(applies) =>
      AnyObserver(s) && applies && (!HasData(s) || Old(s, s.meta.value.options.stale, now))
    case Prefetched(options) =>
      !HasData(s) || Old(s, if s.meta.Some? then s.meta.value.options.stale else options.stale, now)
    case _ => false
  }

  /** The query's policies after the event: a render's are the latest. */
  function OptionsAfter<V>(s: KeyState<V>, event: Event<V>): Option<Options> {
    match event
    case Render(_, options) => Some(options)
    case Prefetched(options) => if s.meta.Some? then Some(s.meta.value.options) else Some(options)
    case _ => if s.meta.Some? then Some(s.meta.value.options) else None
  }

  /** A fetch begins exactly when it is asked for and none is in flight; then it is the only one, new,
      and of the page asked for. */
  ghost predicate BeginsAsAsked<V>(s: KeyState<V>, event: Event<V>, now: nat, after: KeyState<V>) {
    var begins := Fetches(s) == {} && AsksForFetch(s, event, now);
    && after.fetches == (if begins then s.fetches + 1 else s.fetches)
    && (begins ==> exists t :: NewFetch(s, event, after, t))
  }

  ghost predicate NewFetch<V>(s: KeyState<V>, event: Event<V>, after: KeyState<V>, t: nat) {
    && t >= s.next && Fetches(after) == {t} && OptionsAfter(s, event).Some?
    && after.works[t] == Fetch(event.NextPage?, 0, OptionsAfter(s, event).value.retries)
  }

  lemma NoFetchIdle<V>(s: KeyState<V>)
    requires Inv(s)
    ensures Fetches(s) == {} <==> s.meta.None? || s.meta.value.task.None?
  {
    if s.meta.Some? && s.meta.value.task.Some? {
      assert s.meta.value.task.value in Fetches(s);
    }
  }

  lemma StepBeginsAsAsked<V>(s: KeyState<V>, event: Event<V>, now: nat)
    requires Inv(s) && Enabled(s, event)
    ensures BeginsAsAsked(s, event, now, Step(s, event, now))
  {
    NoFetchIdle(s);
    var after := Step(s, event, now);
    assert after.fetches > s.fetches && Fetches(s) == {} && AsksForFetch(s, event, now) && Fetches(after) == {s.next}
           && OptionsAfter(s, event).Some?
           && after.works[s.next] == Fetch(event.NextPage?, 0, OptionsAfter(s, event).value.retries) ==>
             NewFetch(s, event, after, s.next);
    match event
    case Render(id, options) => RenderBegins(s, id, options, now);
    case Prefetched(options) => PrefetchBegins(s, options, now);
    case Invalidated =>
      StartsNew(if s.meta.Some? then SetMeta(s, s.meta.value.(invalidated := true)) else s, false, false);
    case NextPage(hasNext) => StartsNew(s, true, hasNext);
    case RunPoll(_) => StartsNew(s, false, false);
    case Returned(_) => StartsNew(s, false, false);
    case _ =>
  }

  /** When a fetch may start, it is new and the only one. */
  lemma StartsNew<V>(s: KeyState<V>, more: bool, hasNext: bool)
    requires Base(s)
    ensures var after := StartFetch(s, more, hasNext);
      var starts := s.meta.Some? && s.meta.value.task.None?
                    && (more ==> s.meta.value.options.paged && HasData(s) && hasNext);
      if starts then
        && after.fetches == s.fetches + 1 && Fetches(after) == {s.next}
        && after.works[s.next] == Fetch(more, 0, s.meta.value.options.retries)
      else after == s
  {
  }

  lemma RenderBegins<V>(s: KeyState<V>, id: ComponentId, options: Options, now: nat)
    requires Inv(s)
    ensures BeginsAsAsked(s, Render(id, options), now, UseQuery(s, id, options, now))
  {
    NoFetchIdle(s);
    ObserveKeepsTasks(s, id, options);
    ObserveKeepsCounts(s, id, options);
    var seen, after := Observe(s, id, options), UseQuery(s, id, options, now);
    StartsNew(seen, false, false);
    if Fetches(s) == {} && AsksForFetch(s, Render(id, options), now) {
      assert NewFetch(s, Render(id, options), after, s.next);
    }
  }

  lemma RetentionFetches<V>(s: KeyState<V>)
    requires Base(s) && s.meta.Some?
    ensures var after := ScheduleRetention(s);
      && after.fetches == s.fetches && Fetches(after) == Fetches(s)
      && forall t :: t in Fetches(s) ==> after.works[t] == s.works[t]
  {
    RetainSpawned(s);
  }

  lemma PrefetchBegins<V>(s: KeyState<V>, options: Options, now: nat)
    requires Inv(s)
    ensures BeginsAsAsked(s, Prefetched(options), now, Prefetch(s, options, now))
  {
    NoFetchIdle(s);
    var entered := if s.meta.Some? then s else SetMeta(s, NewMeta(options));
    StartsNew(entered, false, false);
    var after := Prefetch(s, options, now);
    var fetched := if IsStale(entered, now) then StartFetch(entered, false, false) else entered;
    StartFetchKeeps(entered, false, false);
    RetentionFetches(fetched);
    if Fetches(s) == {} && AsksForFetch(s, Prefetched(options), now) {
      assert NewFetch(s, Prefetched(options), after, s.next);
    }
  }

  ghost function Polls<V>(s: KeyState<V>): set<nat> {
    set t | t in s.works && s.works[t].Poll?
  }

  ghost function Timers<V>(s: KeyState<V>): set<nat> {
    set t | t in s.works && s.works[t].Retain?
  }

  ghost function Settlings<V>(s: KeyState<V>): set<nat> {
    set t | t in s.works && s.works[t].Settle?
  }

  /** The settling is of a component that holds no handle any more. */
  predicate Leaves<V>(s: KeyState<V>, event: Event<V>) {
    && event.RunSettle? && event.task in s.works && s.works[event.task].Settle?
    && s.meta.Some? && Count(s.handles, s.works[event.task].id) == 0
  }

  /** And nobody else observes. */
  predicate LastLeaves<V>(s: KeyState<V>, event: Event<V>) {
    Leaves(s, event) && s.meta.value.known - {s.works[event.task].id} == {}
  }

  /** The poll: begun by the first component that starts observing with an interval, one at most,
      and ended when the last observer leaves. */
  ghost predicate PollsAsAsked<V>(s: KeyState<V>, event: Event<V>, after: KeyState<V>) {
    if event.Render? && !Observed(s, event.id) && event.options.interval.Some? && Polls(s) == {} then
      exists t :: t >= s.next && Polls(after) == {t}
    else if LastLeaves(s, event) then Polls(after) == {}
    else Polls(after) == Polls(s)
  }

  /** The retention timer: ended by a render, begun by a prefetch or when the last observer leaves,
      in place of the one before, and over once it fires. */
  ghost predicate TimersAsAsked<V>(s: KeyState<V>, event: Event<V>, after: KeyState<V>) {
    if event.Render? then Timers(after) == {}
    else if event.Prefetched? || LastLeaves(s, event) then exists t :: t >= s.next && Timers(after) == {t}
    else if event.RunRetain? then Timers(after) == Timers(s) - {event.task}
    else Timers(after) == Timers(s)
  }

  /** Who observes: a render's component from then on, until a settling finds it holds no handle. A
      settling is spawned exactly when a component's last handle is dropped. When the last observer
      leaves, the fetch is cancelled. */
  ghost predicate ObserversAsAsked<V>(s: KeyState<V>, event: Event<V>, after: KeyState<V>) {
    && (forall id :: Observed(after, id) <==>
          (Observed(s, id) || (event.Render? && event.id == id))
          && !(Leaves(s, event) && s.works[event.task].id == id))
    && (forall id :: Count(after.handles, id) ==
          Count(s.handles, id) + (if event.Render? && event.id == id then 1 else 0)
          - (if event == Drop(id) then 1 else 0))
    && (if event.Drop? && Count(s.handles, event.id) == 1 then
          exists t :: t >= s.next && Settlings(after) == Settlings(s) + {t} && after.works[t] == Settle(event.id)
        else Settlings(after) == if event.RunSettle? then Settlings(s) - {event.task} else Settlings(s))
    && (LastLeaves(s, event) ==> Fetches(after) == {})
  }

  /** The reply makes its fetch try again: a failure that may be, with tries left. */
  predicate TriesAgain<V>(s: KeyState<V>, event: Event<V>) {
    && event.FetchReply? && event.reply.Failed? && event.reply.retryable
    && event.task in s.works && s.works[event.task].Fetch?
    && s.works[event.task].attempt < s.works[event.task].retries
  }

  /** A reply ends its fetch, but for a failure with tries left, which changes only their number; and
      nothing but a reply or the last observer leaving ends a fetch. */
  ghost predicate FetchesAsAsked<V>(s: KeyState<V>, event: Event<V>, now: nat, after: KeyState<V>) {
    if TriesAgain(s, event) then
      var w := s.works[event.task];
      after == s.(works := s.works[event.task := Fetch(w.more, w.attempt + 1, w.retries)])
    else if event.FetchReply? || LastLeaves(s, event) then Fetches(after) == {}
    else if Fetches(s) != {} then
      Fetches(after) == Fetches(s) && forall t :: t in Fetches(s) ==> after.works[t] == s.works[t]
    else Fetches(after) != {} ==> AsksForFetch(s, event, now)
  }

  predicate Loads<V>(event: Event<V>) {
    event.FetchReply? && event.reply.Loaded?
  }

  /** A retention timer fires on an entry nobody observes or fetches. */
  predicate Removes<V>(s: KeyState<V>, event: Event<V>) {
    event.RunRetain? && s.meta.Some? && s.meta.value.known == {} && s.meta.value.task.None?
  }

  function ValueOf<V>(s: KeyState<V>): Option<V> {
    if s.slot.Some? then s.slot.value.data else None
  }

  function ErrorOf<V>(s: KeyState<V>): Option<string> {
    if s.slot.Some? then s.slot.value.error else None
  }

  /** The entry: made by a render or a prefetch, removed by its retention timer. Its policies are the
      latest render's; its value the last loaded or written, the cached one staying when an equal one
      is loaded; its failure the last fetch's; loading dates it and makes it valid, invalidating
      marks it. */
  ghost predicate EntryAsAsked<V>(s: KeyState<V>, event: Event<V>, now: nat, after: KeyState<V>) {
    && (after.meta.Some? <==> !Removes(s, event) && (s.meta.Some? || event.Render? || event.Prefetched?))
    && (after.meta.Some? ==>
          && Some(after.meta.value.options) == OptionsAfter(s, event)
          && after.meta.value.fetchedAt
             == (if Loads(event) then Some(now) else if s.meta.Some? then s.meta.value.fetchedAt else None)
          && after.meta.value.invalidated
             == (!Loads(event) && s.meta.Some? && (event.Invalidated? || s.meta.value.invalidated)))
    && (Removes(s, event) ==> after.slot.None?)
    && ValueOf(after)
       == (if Removes(s, event) then None
           else match event
                case FetchReply(_, Loaded(data), same) => if same && ValueOf(s).Some? then ValueOf(s) else Some(data)
                case Written(data) => Some(data)
                case _ => ValueOf(s))
    && ErrorOf(after)
       == (if Removes(s, event) then None
           else match event
                case FetchReply(_, Loaded(_), _) => None
                case FetchReply(_, Failed(message, _), _) =>
                  if TriesAgain(s, event) then ErrorOf(s) else Some(message)
                case _ => ErrorOf(s))
  }

  /** All of this. */
  ghost predicate AsAsked<V>(s: KeyState<V>, event: Event<V>, now: nat, after: KeyState<V>) {
    && BeginsAsAsked(s, event, now, after)
    && RestAsAsked(s, event, now, after)
  }

  ghost predicate RestAsAsked<V>(s: KeyState<V>, event: Event<V>, now: nat, after: KeyState<V>) {
    && FetchesAsAsked(s, event, now, after)
    && PollsAsAsked(s, event, after)
    && TimersAsAsked(s, event, after)
    && ObserversAsAsked(s, event, after)
    && EntryAsAsked(s, event, now, after)
  }

  /** Nothing changes but fetches. */
  ghost predicate FetchesOnly<V>(s: KeyState<V>, after: KeyState<V>) {
    && after.handles == s.handles && s.next <= after.next
    && Polls(after) == Polls(s) && Timers(after) == Timers(s)
    && Settlings(after) == Settlings(s)
    && (forall t :: t in Settlings(s) ==> after.works[t] == s.works[t])
    && ValueOf(after) == ValueOf(s) && ErrorOf(after) == ErrorOf(s)
    && after.meta.Some? == s.meta.Some?
    && (s.meta.Some? ==> after.meta.value.(task := None) == s.meta.value.(task := None))
  }

  lemma StartFetchOnly<V>(s: KeyState<V>, more: bool, hasNext: bool)
    requires Numbered(s)
    ensures FetchesOnly(s, StartFetch(s, more, hasNext))
  {
  }

  lemma StartsAsAsked<V>(s: KeyState<V>, event: Event<V>, now: nat)
    requires Inv(s) && Enabled(s, event)
    requires event.RunPoll? || event.NextPage? || event.Returned?
    ensures RestAsAsked(s, event, now, Step(s, event, now))
  {
    NoFetchIdle(s);
    StartFetchOnly(s, event.NextPage?, event.NextPage? && event.hasNext);
    StartsNew(s, event.NextPage?, event.NextPage? && event.hasNext);
  }

  lemma InvalidatesAsAsked<V>(s: KeyState<V>, now: nat)
    requires Inv(s)
    ensures RestAsAsked(s, Invalidated, now, Invalidate(s))
  {
    NoFetchIdle(s);
    if s.meta.Some? {
      var marked := SetMeta(s, s.meta.value.(invalidated := true));
      assert Polls(marked) == Polls(s) && Timers(marked) == Timers(s) && Settlings(marked) == Settlings(s);
      assert Fetches(marked) == Fetches(s);
      StartFetchOnly(marked, false, false);
      StartsNew(marked, false, false);
    }
  }

  lemma WritesAsAsked<V>(s: KeyState<V>, data: V, now: nat)
    requires Inv(s)
    ensures RestAsAsked(s, Written(data), now, WriteData(s, data))
  {
    NoFetchIdle(s);
  }

  lemma RepliesAsAsked<V>(s: KeyState<V>, task: nat, reply: Reply<V>, same: bool, now: nat)
    requires Inv(s) && Enabled(s, FetchReply(task, reply, same))
    ensures RestAsAsked(s, FetchReply(task, reply, same), now, Replied(s, task, reply, same, now))
  {
    var event, after := FetchReply(task, reply, same), Replied(s, task, reply, same, now);
    NoFetchIdle(s);
    assert Polls(after) == Polls(s) && Timers(after) == Timers(s) && Settlings(after) == Settlings(s);
  }

  lemma CollectsAsAsked<V>(s: KeyState<V>, event: Event<V>, now: nat)
    requires Inv(s) && event.RunRetain? && Enabled(s, event)
    ensures RestAsAsked(s, event, now, Collect(s, event.task))
  {
    var after := Collect(s, event.task);
    NoFetchIdle(s);
    assert Polls(after) == Polls(s) && Timers(after) == Timers(s) - {event.task} && Settlings(after) == Settlings(s);
  }

  lemma DropsAsAsked<V>(s: KeyState<V>, id: ComponentId, now: nat)
    requires Inv(s) && Enabled(s, Drop(id))
    ensures RestAsAsked(s, Drop(id), now, DropHandle(s, id))
  {
    assert Count(s.handles, id) == if s.meta.Some? then Count(s.meta.value.observers, id) else 0;
    var after := DropHandle(s, id);
    NoFetchIdle(s);
    assert Polls(after) == Polls(s) && Timers(after) == Timers(s) && Fetches(after) == Fetches(s);
    if Count(s.handles, id) == 1 {
      assert Settlings(after) == Settlings(s) + {s.next};
    }
  }

  lemma SettlesAsAsked<V>(s: KeyState<V>, event: Event<V>, now: nat)
    requires Inv(s) && event.RunSettle? && Enabled(s, event)
    ensures RestAsAsked(s, event, now, SettleObserver(s, event.task))
  {
    var id := s.works[event.task].id;
    assert Count(s.handles, id) == if s.meta.Some? then Count(s.meta.value.observers, id) else 0;
    NoFetchIdle(s);
    if LastLeaves(s, event) {
      LastLeavesAsAsked(s, event);
    }
  }

  lemma LastLeavesAsAsked<V>(s: KeyState<V>, event: Event<V>)
    requires Inv(s) && LastLeaves(s, event)
    ensures var after := SettleObserver(s, event.task);
      && Polls(after) == {} && Fetches(after) == {} && Timers(after) == {s.next}
      && Settlings(after) == Settlings(s) - {event.task}
  {
    var id := s.works[event.task].id;
    assert Count(s.handles, id) == Count(s.meta.value.observers, id);
    var left := Left(s, event.task, id);
    LeftKeeps(s, event.task, id);
    assert Settlings(StopFetching(left)) == Settlings(s) - {event.task};
    StopFetchingKeeps(left);
    RetentionFetches(StopFetching(left));
    RetentionOnly(StopFetching(left));
  }

  lemma PrefetchesAsAsked<V>(s: KeyState<V>, options: Options, now: nat)
    requires Inv(s)
    ensures RestAsAsked(s, Prefetched(options), now, Prefetch(s, options, now))
  {
    PrefetchTasks(s, options, now);
    PrefetchEntry(s, options, now);
  }

  lemma PrefetchTasks<V>(s: KeyState<V>, options: Options, now: nat)
    requires Inv(s)
    ensures var after := Prefetch(s, options, now);
      && FetchesAsAsked(s, Prefetched(options), now, after) && PollsAsAsked(s, Prefetched(options), after)
      && TimersAsAsked(s, Prefetched(options), after)
      && Settlings(after) == Settlings(s)
  {
    var entered := if s.meta.Some? then s else SetMeta(s, NewMeta(options));
    var fetched := if IsStale(entered, now) then StartFetch(entered, false, false) else entered;
    PrefetchBegins(s, options, now);
    StartFetchKeeps(entered, false, false);
    StartFetchOnly(entered, false, false);
    StartsNew(entered, false, false);
    RetentionFetches(fetched);
    RetentionOnly(fetched);
  }

  lemma PrefetchEntry<V>(s: KeyState<V>, options: Options, now: nat)
    requires Inv(s) && Settlings(Prefetch(s, options, now)) == Settlings(s)
    ensures var after := Prefetch(s, options, now);
      ObserversAsAsked(s, Prefetched(options), after) && EntryAsAsked(s, Prefetched(options), now, after)
  {
    var entered := if s.meta.Some? then s else SetMeta(s, NewMeta(options));
    StartFetchOnly(entered, false, false);
  }

  lemma RetentionOnly<V>(s: KeyState<V>)
    requires Base(s) && s.meta.Some?
    ensures var after := ScheduleRetention(s);
      && Timers(after) == {s.next} && Polls(after) == Polls(s) && Settlings(after) == Settlings(s)
      && forall t :: t in Settlings(s) ==> after.works[t] == s.works[t]
  {
    RetainSpawned(s);
  }

  lemma RendersAsAsked<V>(s: KeyState<V>, id: ComponentId, options: Options, now: nat)
    requires Inv(s)
    ensures RestAsAsked(s, Render(id, options), now, UseQuery(s, id, options, now))
  {
    RenderTasks(s, id, options, now);
    RenderObservers(s, id, options, now);
    RenderEntry(s, id, options, now);
  }

  lemma RenderTasks<V>(s: KeyState<V>, id: ComponentId, options: Options, now: nat)
    requires Inv(s)
    ensures var after := UseQuery(s, id, options, now);
      && FetchesAsAsked(s, Render(id, options), now, after) && PollsAsAsked(s, Render(id, options), after)
      && TimersAsAsked(s, Render(id, options), after)
  {
    var seen := Observe(s, id, options);
    ObserveOnly(s, id, options);
    RenderBegins(s, id, options, now);
    ObserveKeepsTasks(s, id, options);
    ObserveKeepsCounts(s, id, options);
    if !Observed(s, id) {
      MountedAsAsked(seen, now);
      MountedFetches(seen, now);
    }
  }

  lemma MountedFetches<V>(s: KeyState<V>, now: nat)
    requires Base(s) && s.meta.Some? && s.meta.value.known != {}
    ensures var after := Mounted(s, now);
      Fetches(s) != {} ==> Fetches(after) == Fetches(s) && forall t :: t in Fetches(s) ==> after.works[t] == s.works[t]
  {
  }

  lemma RenderObservers<V>(s: KeyState<V>, id: ComponentId, options: Options, now: nat)
    requires Inv(s)
    ensures ObserversAsAsked(s, Render(id, options), UseQuery(s, id, options, now))
  {
    ObserveOnly(s, id, options);
    if !Observed(s, id) {
      assert Base(Observe(s, id, options)) by {
        ObserveKeepsTasks(s, id, options);
        ObserveKeepsCounts(s, id, options);
      }
      MountedAsAsked(Observe(s, id, options), now);
    }
  }

  lemma RenderEntry<V>(s: KeyState<V>, id: ComponentId, options: Options, now: nat)
    requires Inv(s)
    ensures EntryAsAsked(s, Render(id, options), now, UseQuery(s, id, options, now))
  {
    ObserveKeepsTasks(s, id, options);
    ObserveKeepsCounts(s, id, options);
    ObserveOnly(s, id, options);
    if !Observed(s, id) {
      MountedAsAsked(Observe(s, id, options), now);
    }
  }

  /** A render's counting ends the timer and touches no other task. */
  lemma ObserveOnly<V>(s: KeyState<V>, id: ComponentId, options: Options)
    requires Inv(s)
    ensures var seen := Observe(s, id, options);
      && Timers(seen) == {} && Polls(seen) == Polls(s) && Fetches(seen) == Fetches(s) && Settlings(seen) == Settlings(s)
      && (forall t :: t in seen.works ==> t in s.works && seen.works[t] == s.works[t])
      && ValueOf(seen) == ValueOf(s) && ErrorOf(seen) == ErrorOf(s)
      && (forall other :: Count(seen.handles, other) == Count(s.handles, other) + if other == id then 1 else 0)
  {
  }

  lemma MountedAsAsked<V>(s: KeyState<V>, now: nat)
    requires Base(s) && s.meta.Some? && s.meta.value.known != {}
    ensures var after := Mounted(s, now);
      && after.handles == s.handles && Timers(after) == Timers(s) && Settlings(after) == Settlings(s)
      && ValueOf(after) == ValueOf(s) && ErrorOf(after) == ErrorOf(s) && after.meta.Some?
      && after.meta.value.(task := None, interval := None) == s.meta.value.(task := None, interval := None)
      && (if s.meta.value.options.interval.Some? && Polls(s) == {} then exists t :: t >= s.next && Polls(after) == {t}
          else Polls(after) == Polls(s))
  {
    var seen := StartFetch(s, false, false);
    StartFetchOnly(s, false, false);
    var after := Mounted(s, now);
    if s.meta.value.interval.Some? {
      assert s.meta.value.interval.value in Polls(s);
    } else if s.meta.value.options.interval.Some? {
      assert Polls(after) == {after.meta.value.interval.value};
    }
  }

  lemma StepAsAsked<V>(s: KeyState<V>, event: Event<V>, now: nat)
    requires Inv(s) && Enabled(s, event)
    ensures AsAsked(s, event, now, Step(s, event, now))
  {
    StepBeginsAsAsked(s, event, now);
    match event
    case Render(id, options) => RendersAsAsked(s, id, options, now);
    case Drop(id) => DropsAsAsked(s, id, now);
    case RunSettle(_) => SettlesAsAsked(s, event, now);
    case RunRetain(_) => CollectsAsAsked(s, event, now);
    case RunPoll(_) => StartsAsAsked(s, event, now);
    case NextPage(_) => StartsAsAsked(s, event, now);
    case Returned(_) => StartsAsAsked(s, event, now);
    case Invalidated => InvalidatesAsAsked(s, now);
    case FetchReply(task, reply, same) => RepliesAsAsked(s, task, reply, same, now);
    case Prefetched(options) => PrefetchesAsAsked(s, options, now);
    case Written(data) => WritesAsAsked(s, data, now);
  }

  /** Over every interleaving, whatever happens next does exactly what it asks for. */
  lemma EveryEventAsAsked<V>(next: nat, fetches: nat, run: seq<Turn<V>>, turn: Turn<V>)
    requires CanRun(Unused<V>(next, fetches), run)
    requires Enabled(Run(Unused<V>(next, fetches), run), turn.event)
    ensures var s := Run(Unused<V>(next, fetches), run);
      AsAsked(s, turn.event, turn.now, Step(s, turn.event, turn.now))
  {
    RunKeeps(Unused<V>(next, fetches), run);
    StepAsAsked(Run(Unused<V>(next, fetches), run), turn.event, turn.now);
  }

  /** Since the key was last observed by nobody, a component started observing with an interval;
      `due` says so of the time before the run. */
  predicate PollDue<V>(s: KeyState<V>, run: seq<Turn<V>>, due: bool)
    requires CanRun(s, run)
    decreases |run|
  {
    if run == [] then due
    else
      var event, after := run[0].event, Step(s, run[0].event, run[0].now);
      var asks := event.Render? && !Observed(s, event.id) && event.options.interval.Some?;
      PollDue(after, run[1..], asks || (due && AnyObserver(after)))
  }

  ghost predicate PollLive<V>(s: KeyState<V>) {
    exists t :: Polls(s) == {t}
  }

  /** Over every interleaving there is one poll exactly when one is due, and otherwise none. */
  lemma PolledIffDue<V>(next: nat, fetches: nat, run: seq<Turn<V>>)
    requires CanRun(Unused<V>(next, fetches), run)
    ensures var s := Run(Unused<V>(next, fetches), run);
      if PollDue(Unused<V>(next, fetches), run, false) then PollLive(s) else Polls(s) == {}
  {
    PollsFollow(Unused<V>(next, fetches), run, false);
  }

  lemma {:induction false} PollsFollow<V>(s: KeyState<V>, run: seq<Turn<V>>, due: bool)
    requires Inv(s) && CanRun(s, run) && if due then PollLive(s) && AnyObserver(s) else Polls(s) == {}
    ensures if PollDue(s, run, due) then PollLive(Run(s, run)) else Polls(Run(s, run)) == {}
    decreases |run|
  {
    if run != [] {
      var event, after := run[0].event, Step(s, run[0].event, run[0].now);
      var asks := event.Render? && !Observed(s, event.id) && event.options.interval.Some?;
      StepKeeps(s, event, run[0].now);
      StepAsAsked(s, event, run[0].now);
      PollsStep(s, event, run[0].now, due);
      PollsFollow(after, run[1..], asks || (due && AnyObserver(after)));
    }
  }

  lemma PollsStep<V>(s: KeyState<V>, event: Event<V>, now: nat, due: bool)
    requires Inv(s) && Enabled(s, event) && if due then PollLive(s) && AnyObserver(s) else Polls(s) == {}
    ensures var after := Step(s, event, now);
      var asks := event.Render? && !Observed(s, event.id) && event.options.interval.Some?;
      if asks || (due && AnyObserver(after)) then PollLive(after) && AnyObserver(after) else Polls(after) == {}
  {
    StepAsAsked(s, event, now);
    StepKeeps(s, event, now);
    var after := Step(s, event, now);
    if event.Render? {
      assert Observed(after, event.id);
    }
  }

  /** Every render of the run names an interval. */
  predicate AllPoll<V>(run: seq<Turn<V>>) {
    run != [] ==> (run[0].event.Render? ==> run[0].event.options.interval.Some?) && AllPoll(run[1..])
  }

  /** When every render asks for polling, the key is polled exactly while somebody observes it. */
  lemma PolledWhileObserved<V>(next: nat, fetches: nat, run: seq<Turn<V>>)
    requires CanRun(Unused<V>(next, fetches), run) && AllPoll(run)
    ensures var s := Run(Unused<V>(next, fetches), run);
      if AnyObserver(s) then PollLive(s) else Polls(s) == {}
  {
    PolledIffDue(next, fetches, run);
    DueWhileObserved(Unused<V>(next, fetches), run, false);
  }

  lemma {:induction false} DueWhileObserved<V>(s: KeyState<V>, run: seq<Turn<V>>, due: bool)
    requires Inv(s) && CanRun(s, run) && AllPoll(run) && (due <==> AnyObserver(s))
    ensures PollDue(s, run, due) <==> AnyObserver(Run(s, run))
    decreases |run|
  {
    if run != [] {
      var event, after := run[0].event, Step(s, run[0].event, run[0].now);
      StepKeeps(s, event, run[0].now);
      StepAsAsked(s, event, run[0].now);
      if AnyObserver(after) {
        var id :| id in after.meta.value.known;
        assert Observed(after, id);
      }
      if event.Render? {
        assert Observed(after, event.id);
      }
      var asks := event.Render? && !Observed(s, event.id) && event.options.interval.Some?;
      DueWhileObserved(after, run[1..], asks || (due && AnyObserver(after)));
    }
  }

  /** But a component that asks for polling only once it already observes gets none: it renders without
      an interval and then again with one. */
  lemma LateIntervalIsNotPolled<V>(late: Turn<V>)
    requires late.event.Render? && late.event.id == 0 && late.event.options.interval.Some?
    ensures var run := [Turn(Render(0, late.event.options.(interval := None)), 0), late];
      && CanRun(Unused<V>(0, 0), run)
      && Observed(Run(Unused<V>(0, 0), run), 0)
      && Run(Unused<V>(0, 0), run).meta.value.options.interval.Some?
      && Polls(Run(Unused<V>(0, 0), run)) == {}
  {
    var run := [Turn(Render(0, late.event.options.(interval := None)), 0), late];
    var first := Step(Unused<V>(0, 0), run[0].event, 0);
    assert run[1..] == [late] && [late][1..] == [];
    assert CanRun(first, run[1..]);
    assert Run(first, run[1..]) == Step(first, late.event, late.now);
  }

  /** The replies fetch `t` got. */
  function Replies<V>(run: seq<Turn<V>>, t: nat): nat {
    if run == [] then 0
    else (if run[0].event.FetchReply? && run[0].event.task == t then 1 else 0) + Replies(run[1..], t)
  }

  function TriesOf<V>(s: KeyState<V>, t: nat): nat {
    if t in s.works && s.works[t].Fetch? then s.works[t].attempt else 0
  }

  lemma NextGrows<V>(s: KeyState<V>, event: Event<V>, now: nat)
    requires Enabled(s, event)
    ensures s.next <= Step(s, event, now).next
  {
    match event
    case Render(id, options) => assert Observe(s, id, options).next == s.next;
    case _ =>
  }

  /** A reply its fetch outlives is one more try; a fetch that ended never returns. */
  lemma TriesStep<V>(s: KeyState<V>, event: Event<V>, now: nat, t: nat)
    requires Inv(s) && Enabled(s, event)
    ensures var after := Step(s, event, now);
      && (t in Fetches(after) ==> TriesOf(after, t) == TriesOf(s, t) + Replies([Turn(event, now)], t))
      && (t in Fetches(after) && t !in Fetches(s) ==> t >= s.next)
  {
    StepAsAsked(s, event, now);
    var after := Step(s, event, now);
    assert Replies([Turn(event, now)][1..], t) == 0;
    if t in Fetches(after) && Fetches(s) == {} {
      var begun :| NewFetch(s, event, after, begun);
      assert t == begun;
    }
  }

  lemma {:induction false} TriesFollow<V>(s: KeyState<V>, run: seq<Turn<V>>, t: nat)
    requires Inv(s) && CanRun(s, run)
    ensures t in Fetches(Run(s, run)) ==> TriesOf(Run(s, run), t) == TriesOf(s, t) + Replies(run, t)
    ensures t in Fetches(Run(s, run)) && t !in Fetches(s) ==> t >= s.next
    decreases |run|
  {
    if run != [] {
      var event, now := run[0].event, run[0].now;
      var after := Step(s, event, now);
      StepKeeps(s, event, now);
      TriesStep(s, event, now, t);
      NextGrows(s, event, now);
      assert Replies([Turn(event, now)][1..], t) == 0;
      TriesFollow(after, run[1..], t);
      assert t in Fetches(s) ==> t < s.next;
    }
  }

  /** Over every interleaving, a live fetch has had a reply for each time it was tried again, and no
      more of them than its query allows retries. */
  lemma TriesCounted<V>(next: nat, fetches: nat, run: seq<Turn<V>>, t: nat)
    requires CanRun(Unused<V>(next, fetches), run)
    requires t in Fetches(Run(Unused<V>(next, fetches), run))
    ensures var work := Run(Unused<V>(next, fetches), run).works[t];
      work.attempt == Replies(run, t) <= work.retries
  {
    RunKeeps(Unused<V>(next, fetches), run);
    TriesFollow(Unused<V>(next, fetches), run, t);
  }

  /** A fetch of the first page is live. */
  ghost predicate Refetching<V>(s: KeyState<V>) {
    exists t :: t in Fetches(s) && !s.works[t].more
  }

  /** Over every interleaving, what a component is shown says what is cached and what is under way. */
  lemma ShownExactly<V>(next: nat, fetches: nat, run: seq<Turn<V>>, isEmpty: bool)
    requires CanRun(Unused<V>(next, fetches), run)
    ensures var s := Run(Unused<V>(next, fetches), run); var shown := StateOf(s.slot, isEmpty);
      && (shown.Loading? <==> ValueOf(s).None? && (ErrorOf(s).None? || Refetching(s)))
      && (shown.Failure? <==> ValueOf(s).None? && ErrorOf(s).Some? && !Refetching(s))
      && (shown.Failure? ==> ErrorOf(s) == Some(shown.message))
      && (shown.Refreshing? <==> ValueOf(s).Some? && Refetching(s))
      && (shown.Empty? <==> ValueOf(s).Some? && isEmpty && !Refetching(s))
      && (shown.Success? || shown.Refreshing? ==> ValueOf(s) == Some(shown.data))
  {
    var s := Run(Unused<V>(next, fetches), run);
    RunKeeps(Unused<V>(next, fetches), run);
    if SlotOf(s).fetching {
      assert s.meta.value.task.value in Fetches(s);
    }
  }

  // ---------------------------------------------------------------------
  // Jitter
  // ---------------------------------------------------------------------

  /** One turn of xorshift64. */
  function NextRandom(x: bv64): bv64 {
    var a := x ^ (x << 13);
    var b := a ^ (a >> 7);
    b ^ (b << 17)
  }

  lemma LeftBy13(x: bv64)
    requires x != 0
    ensures x ^ (x << 13) != 0
  {
    assert x == x << 13 ==> x == 0;
  }

  lemma RightBy7(x: bv64)
    requires x != 0
    ensures x ^ (x >> 7) != 0
  {
    assert x == x >> 7 ==> x == 0;
  }

  lemma LeftBy17(x: bv64)
    requires x != 0
    ensures x ^ (x << 17) != 0
  {
    assert x == x << 17 ==> x == 0;
  }

  /** A generator seeded away from zero never reaches it. */
  lemma NeverZero(x: bv64)
    requires x != 0
    ensures NextRandom(x) != 0
  {
    LeftBy13(x);
    var a := x ^ (x << 13);
    RightBy7(a);
    LeftBy17(a ^ (a >> 7));
  }
}
