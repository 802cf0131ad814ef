/** Mutations: optimistic updates with rollback, conflict handling, and the durable
    offline queue (crates/rustnative-data/src/mutation.rs), as one-thread steps.
    One step is the code a task runs between two awaits. */
module Mutations {
  import opened QueryKeys
  import opened Wrappers

  /** A mutation as it is sent and queued. `number` says which one this run made or loaded it as:
      history the source does not keep, given anew by each run. */
  datatype Queued<V> = Queued(kind: string, payload: V, invalidates: seq<QueryKey>, number: nat)

  /** An optimistic update: what it makes of the entry cached under `key`. */
  datatype Change<!V> = Change(key: QueryKey, apply: Option<V> -> Option<V>)

  /** The value an optimistic update replaced. */
  datatype Snapshot<V> = Snapshot(key: QueryKey, before: Option<V>)

  datatype Policy<!V> = ServerWins | ClientWins | Merge(merge: (V, V) -> V)

  /** A handler's answer. */
  datatype Reply<V> = Accepted | Rejected | Unreachable | Conflict(server: V)

  datatype Request<V> = Request(kind: string, payload: V, force: bool)

  datatype Outcome = Settled | Queue

  /** A spawned send that has not ended: not polled yet (`request` is `None`), or waiting
      for its handler to answer `request`. `calls` counts the requests made: history. */
  datatype Send<V> = Send(
    mutation: Queued<V>, snapshots: seq<Snapshot<V>>, replay: bool,
    request: Option<Request<V>>, calls: nat)

  /** What a mutation was made of: the cache it was made on, and its optimistic updates. */
  datatype Origin<!V> = Origin(made: map<QueryKey, V>, optimistic: seq<Change<V>>)

  /** The durable store, if there is one, and the queue it holds; `None` when it holds nothing
      that reads as a queue. */
  datatype Store<V> = NoStore | Store(held: Option<seq<Queued<V>>>)

  /** What a mutation side made with this store begins with. */
  function Loads<V>(store: Store<V>): seq<Queued<V>> {
    match store
    case Store(Some(queue)) => queue
    case _ => []
  }

  /** What the mutation side of a query client holds. `cached` has an entry for every slot
      with data. `everQueued`, `settled` (the mutations a replay settled, in order), `origins`
      (of every mutation, by number) and `invalidated` (the prefixes, in order) are history. */
  datatype Client<!V> = Client(
    handlers: set<string>, policy: Policy<V>,
    queue: seq<Queued<V>>, store: Store<V>, replaying: bool,
    attached: bool, online: bool, pending: int, queued: nat, rejected: nat,
    cached: map<QueryKey, V>,
    sends: map<nat, Send<V>>, nextSend: nat,
    everQueued: seq<Queued<V>>, settled: seq<Queued<V>>, origins: seq<Origin<V>>, invalidated: seq<QueryKey>)

  // ---------------------------------------------------------------------
  // The optimistic cache
  // ---------------------------------------------------------------------

  function Get<V>(cached: map<QueryKey, V>, key: QueryKey): Option<V> {
    if key in cached then Some(cached[key]) else None
  }

  function SetData<V>(cached: map<QueryKey, V>, key: QueryKey, data: Option<V>): map<QueryKey, V> {
    match data
    case Some(value) => cached[key := value]
    case None => cached - {key}
  }

  function Optimistic<V>(cached: map<QueryKey, V>, changes: seq<Change<V>>)
    : (map<QueryKey, V>, seq<Snapshot<V>>)
    decreases |changes|
  {
    if changes == [] then (cached, [])
    else
      var key := changes[0].key;
      var before := Get(cached, key);
      var after := changes[0].apply(before);
      if after.None? then Optimistic(cached, changes[1..])
      else
        var (last, snapshots) := Optimistic(SetData(cached, key, after), changes[1..]);
        (last, [Snapshot(key, before)] + snapshots)
  }

  /** Puts the snapshots back, the latest first. */
  function Restore<V>(cached: map<QueryKey, V>, snapshots: seq<Snapshot<V>>): map<QueryKey, V>
    decreases |snapshots|
  {
    if snapshots == [] then cached
    else
      var last := snapshots[|snapshots| - 1];
      Restore(SetData(cached, last.key, last.before), snapshots[..|snapshots| - 1])
  }

  ghost function Touched<V>(snapshots: seq<Snapshot<V>>): set<QueryKey> {
    set s | s in snapshots :: s.key
  }

  /** Restoring undoes exactly what was touched: those entries go back to what they were in
      `made`, whatever they became meanwhile, and no other entry changes. */
  ghost predicate Undoes<V(!new)>(snapshots: seq<Snapshot<V>>, made: map<QueryKey, V>) {
    forall now: map<QueryKey, V>, key ::
      Get(Restore(now, snapshots), key) == Get(if key in Touched(snapshots) then made else now, key)
  }

  /** The first snapshot is put back last, so it is the one that counts. */
  lemma {:induction false} RestoreFirst<V>(now: map<QueryKey, V>, first: Snapshot<V>, rest: seq<Snapshot<V>>)
    ensures Restore(now, [first] + rest) == SetData(Restore(now, rest), first.key, first.before)
    decreases |rest|
  {
    var all := [first] + rest;
    if rest == [] {
      assert all[..|all| - 1] == [];
    } else {
      var last := rest[|rest| - 1];
      assert all[..|all| - 1] == [first] + rest[..|rest| - 1];
      RestoreFirst(SetData(now, last.key, last.before), first, rest[..|rest| - 1]);
    }
  }

  lemma {:induction false} OptimisticUndone<V(!new)>(made: map<QueryKey, V>, changes: seq<Change<V>>)
    ensures Undoes(Optimistic(made, changes).1, made)
    decreases |changes|
  {
    if changes != [] {
      var key := changes[0].key;
      var before := Get(made, key);
      var after := changes[0].apply(before);
      if after.None? {
        OptimisticUndone(made, changes[1..]);
      } else {
        var next := SetData(made, key, after);
        var rest := Optimistic(next, changes[1..]).1;
        OptimisticUndone(next, changes[1..]);
        var first := Snapshot(key, before);
        forall now: map<QueryKey, V>, k
          ensures Get(Restore(now, [first] + rest), k)
               == Get(if k in Touched([first] + rest) then made else now, k)
        {
          RestoreFirst(now, first, rest);
          assert Touched([first] + rest) == {key} + Touched(rest);
          assert Get(Restore(now, rest), k) == Get(if k in Touched(rest) then next else now, k);
        }
      }
    }
  }

  // ---------------------------------------------------------------------
  // The steps
  // ---------------------------------------------------------------------

  /** Saves the queue (if the store takes it) and shows its length. */
  function Persist<V>(c: Client<V>, saves: bool): Client<V> {
    c.(store := if c.store.Store? && saves then Store(Some(c.queue)) else c.store, queued := |c.queue|)
  }

  function Enqueue<V>(c: Client<V>, mutation: Queued<V>, saves: bool): Client<V> {
    Persist(c.(queue := c.queue + [mutation], everQueued := c.everQueued + [mutation]), saves)
  }

  /** A client with one more send in flight. */
  function Sent<V>(c: Client<V>, send: Send<V>): Client<V> {
    c.(pending := c.pending + 1, nextSend := c.nextSend + 1, sends := c.sends[c.nextSend := send])
  }

  /** Spawns a send, or, with nowhere to send from, queues what is not queued already. */
  function SendOff<V>(c: Client<V>, mutation: Queued<V>, snapshots: seq<Snapshot<V>>, replay: bool, saves: bool)
    : Client<V>
  {
    if !c.attached then
      (if replay then c else Enqueue(c, mutation, saves)).(replaying := false)
    else
      Sent(c, Send(mutation, snapshots, replay, None, 0))
  }

  /** Sends the queue's front again. Its optimistic updates were applied when it was made, and what
      they replaced was forgotten when it was queued. */
  function ReplayNext<V>(c: Client<V>, saves: bool): Client<V> {
    if c.queue == [] then c.(replaying := false)
    else SendOff(c, c.queue[0], [], true, saves)
  }

  function ReplayOffline<V>(c: Client<V>, saves: bool): Client<V> {
    if c.replaying then c else ReplayNext(c.(replaying := true), saves)
  }

  function Invalidate<V>(c: Client<V>, mutation: Queued<V>): Client<V> {
    c.(invalidated := c.invalidated + mutation.invalidates)
  }

  function Reject<V>(c: Client<V>, mutation: Queued<V>, snapshots: seq<Snapshot<V>>): Client<V> {
    Invalidate(c.(cached := Restore(c.cached, snapshots), rejected := c.rejected + 1), mutation)
  }

  /** A client just after the task `id` ended. */
  function Ended<V>(c: Client<V>, id: nat): Client<V> {
    c.(pending := c.pending - 1, sends := c.sends - {id})
  }

  /** A client whose replay `id` just settled. */
  function Popped<V>(c: Client<V>, id: nat, saves: bool): Client<V>
    requires id in c.sends
  {
    Persist(Ended(c, id).(queue := if c.queue == [] then [] else c.queue[1..],
                          settled := c.settled + [c.sends[id].mutation]), saves)
  }

  /** What a send does once its delivery has an outcome; the task then ends. */
  function Finish<V>(c: Client<V>, id: nat, outcome: Outcome, saves: bool): Client<V>
    requires id in c.sends
  {
    var send := c.sends[id];
    var ended := Ended(c, id);
    match outcome
    case Settled =>
      if !send.replay then ended
      else
        ReplayNext(Popped(c, id, saves), saves)
    case Queue =>
      (if send.replay then ended else Enqueue(ended, send.mutation, saves)).(replaying := false, online := false)
  }

  function Asking<V>(c: Client<V>, id: nat, request: Request<V>): Client<V>
    requires id in c.sends
  {
    c.(sends := c.sends[id := c.sends[id].(request := Some(request), calls := c.sends[id].calls + 1)])
  }

  /** What the environment or the person does, or a task's next step. `Written` is a query's own
      write of an entry: a fetch that ended, data set by hand, or an entry collected. `saves` says
      whether the store would take a save made in this step. */
  datatype Event<!V> =
    | Mutate(mutation: Queued<V>, optimistic: seq<Change<V>>)
    | SetOnline(online: bool)
    | Attach
    | Register(kind: string)
    | Written(key: QueryKey, data: Option<V>)
    | Poll(id: nat)
    | Answer(id: nat, reply: Reply<V>)

  function OnMutate<V>(c: Client<V>, mutation: Queued<V>, optimistic: seq<Change<V>>, saves: bool): Client<V> {
    var (cached, snapshots) := Optimistic(c.cached, optimistic);
    var made := mutation.(number := |c.origins|);
    var shown := Shown(c, cached, optimistic);
    if c.online then SendOff(shown, made, snapshots, false, saves)
    else Enqueue(shown, made, saves)
  }

  /** A client just after a mutation's optimistic updates left `cached`. */
  function Shown<V>(c: Client<V>, cached: map<QueryKey, V>, optimistic: seq<Change<V>>): Client<V> {
    c.(cached := cached, origins := c.origins + [Origin(c.cached, optimistic)])
  }

  function OnSetOnline<V>(c: Client<V>, online: bool, saves: bool): Client<V> {
    var next := c.(online := online);
    if online && !c.online then ReplayOffline(next, saves) else next
  }

  function OnAttach<V>(c: Client<V>, saves: bool): Client<V> {
    if c.attached then c
    else
      var next := c.(attached := true);
      if next.online && next.queue != [] then ReplayOffline(next, saves) else next
  }

  /** A send's first step: look its handler up and ask it. */
  function OnPoll<V>(c: Client<V>, id: nat, saves: bool): Client<V>
    requires id in c.sends
  {
    var send := c.sends[id];
    var mutation := send.mutation;
    if mutation.kind !in c.handlers then
      Finish(Reject(c, mutation, send.snapshots), id, Settled, saves)
    else
      Asking(c, id, Request(mutation.kind, mutation.payload, false))
  }

  /** What an answer means for a delivery. */
  datatype Verdict<V> = Accept | Refuse | Requeue | AskAgain(request: Request<V>)

  function Judge<V>(policy: Policy<V>, request: Request<V>, reply: Reply<V>): Verdict<V> {
    match reply
    case Accepted => Accept
    case Unreachable => Requeue
    case Rejected => Refuse
    case Conflict(server) =>
      if request.force then Refuse
      else
        match policy
        case ServerWins => Refuse
        case ClientWins => AskAgain(request.(force := true))
        case Merge(merge) => AskAgain(request.(payload := merge(request.payload, server), force := true))
  }

  /** The handler answered: one turn of the delivery's loop. */
  function OnAnswer<V>(c: Client<V>, id: nat, reply: Reply<V>, saves: bool): Client<V>
    requires id in c.sends && c.sends[id].request.Some?
  {
    var send := c.sends[id];
    match Judge(c.policy, send.request.value, reply)
    case Accept => Finish(Invalidate(c, send.mutation), id, Settled, saves)
    case Refuse => Finish(Reject(c, send.mutation, send.snapshots), id, Settled, saves)
    case Requeue => Finish(c, id, Queue, saves)
    case AskAgain(request) => Asking(c, id, request)
  }

  /** A task's step can happen only when the task is there and ready for it. */
  predicate Enabled<V>(c: Client<V>, event: Event<V>) {
    match event
    case Poll(id) => id in c.sends && c.sends[id].request.None?
    case Answer(id, _) => id in c.sends && c.sends[id].request.Some?
    case _ => true
  }

  function Step<V>(c: Client<V>, event: Event<V>, saves: bool): Client<V>
    requires Enabled(c, event)
  {
    match event
    case Mutate(mutation, optimistic) => OnMutate(c, mutation, optimistic, saves)
    case SetOnline(online) => OnSetOnline(c, online, saves)
    case Attach => OnAttach(c, saves)
    case Register(kind) => c.(handlers := c.handlers + {kind})
    case Written(key, data) => c.(cached := SetData(c.cached, key, data))
    case Poll(id) => OnPoll(c, id, saves)
    case Answer(id, reply) => OnAnswer(c, id, reply, saves)
  }

  function Numbered<V>(queue: seq<Queued<V>>): (numbered: seq<Queued<V>>)
    ensures |numbered| == |queue|
    ensures forall i :: 0 <= i < |queue| ==> numbered[i] == queue[i].(number := i)
  {
    seq(|queue|, i requires 0 <= i < |queue| => queue[i].(number := i))
  }

  /** The store a previous run left, its mutations numbered by this one. */
  function Renumbered<V>(store: Store<V>): Store<V> {
    match store
    case Store(Some(queue)) => Store(Some(Numbered(queue)))
    case _ => store
  }

  /** A client made with the store a previous run left, or with none. */
  function Start<V>(store: Store<V>, policy: Policy<V>): Client<V> {
    var renumbered := Renumbered(store);
    var queue := Loads(renumbered);
    Client({}, policy, queue, renumbered, false, false, true, 0, |queue|, 0, map[], map[], 0,
           queue, [], seq(|queue|, i => Origin(map[], [])), [])
  }

  // ---------------------------------------------------------------------
  // What every step keeps
  // ---------------------------------------------------------------------

  ghost function Replays<V>(c: Client<V>): set<nat> {
    set id | id in c.sends && c.sends[id].replay
  }

  /** A delivery asks at most twice, and the second time only by force. */
  ghost predicate AsksAtMostTwice<V>(send: Send<V>) {
    match send.request
    case None => send.calls == 0
    case Some(request) =>
      && request.kind == send.mutation.kind
      && send.calls == (if request.force then 2 else 1)
      && (!request.force ==> request.payload == send.mutation.payload)
  }

  /** What a mutation's optimistic updates replaced. */
  function Replaced<V>(origin: Origin<V>): seq<Snapshot<V>> {
    Optimistic(origin.made, origin.optimistic).1
  }

  /** A direct send carries what its mutation replaced; a replay carries nothing. */
  ghost predicate SendSound<V>(origins: seq<Origin<V>>, send: Send<V>) {
    && AsksAtMostTwice(send)
    && send.mutation.number < |origins|
    && send.snapshots == if send.replay then [] else Replaced(origins[send.mutation.number])
  }

  ghost predicate Sound<V>(c: Client<V>) {
    && c.pending == |c.sends|
    && c.queued == |c.queue|
    && (forall id :: id in c.sends ==> id < c.nextSend)
    && (!c.attached ==> c.sends == map[] && !c.replaying)
    && (forall id :: id in c.sends ==> SendSound(c.origins, c.sends[id]))
    && (forall i :: 0 <= i < |c.queue| ==> c.queue[i].number < |c.origins|)
  }

  /** Replaying holds exactly when one replay is in flight, and it carries the queue's front. */
  ghost predicate ReplayInOrder<V>(c: Client<V>) {
    if c.replaying then
      c.queue != [] && exists id :: Replays(c) == {id} && c.sends[id].mutation == c.queue[0]
    else
      Replays(c) == {}
  }

  /** The one step the queue's order does not survive: a mutation sent directly comes back
      unreachable while a replay is in flight, and ends the replay's claim to be the only one. */
  predicate BreaksReplay<V>(c: Client<V>, event: Event<V>) {
    && c.replaying
    && event.Answer? && event.reply.Unreachable?
    && event.id in c.sends && !c.sends[event.id].replay
  }

  /** What the replays settled, followed by the queue, is everything ever queued, in order. */
  ghost predicate NothingLost<V>(c: Client<V>) {
    c.settled + c.queue == c.everQueued
  }

  lemma SendOffSound<V>(c: Client<V>, mutation: Queued<V>, snapshots: seq<Snapshot<V>>, replay: bool, saves: bool)
    requires Sound(c) && SendSound(c.origins, Send(mutation, snapshots, replay, None, 0))
    ensures Sound(SendOff(c, mutation, snapshots, replay, saves))
  {
    if c.attached {
      SpawnedSound(c, Send(mutation, snapshots, replay, None, 0));
    }
  }

  lemma SpawnedSound<V>(c: Client<V>, send: Send<V>)
    requires Sound(c) && c.attached && SendSound(c.origins, send)
    ensures Sound(Sent(c, send))
  {
    var sends := c.sends[c.nextSend := send];
    assert sends.Keys == c.sends.Keys + {c.nextSend};
    assert |sends.Keys| == |c.sends.Keys| + 1;
  }

  lemma SendOffReplays<V>(c: Client<V>, mutation: Queued<V>, snapshots: seq<Snapshot<V>>, replay: bool, saves: bool)
    requires Sound(c) && c.attached
    ensures Replays(SendOff(c, mutation, snapshots, replay, saves))
         == if replay then Replays(c) + {c.nextSend} else Replays(c)
  {
    var next, send := SendOff(c, mutation, snapshots, replay, saves), Send(mutation, snapshots, replay, None, 0);
    assert next.sends == c.sends[c.nextSend := send] && c.nextSend !in c.sends;
    assert forall id :: id in c.sends ==> next.sends[id] == c.sends[id];
  }

  lemma ReplayNextSound<V>(c: Client<V>, saves: bool)
    requires Sound(c)
    ensures Sound(ReplayNext(c, saves))
  {
    if c.queue != [] {
      SendOffSound(c, c.queue[0], [], true, saves);
    }
  }

  lemma ReplayNextInOrder<V>(c: Client<V>, saves: bool)
    requires Sound(c) && Replays(c) == {}
    requires c.replaying || !c.attached || c.queue == []
    ensures ReplayInOrder(ReplayNext(c, saves))
  {
    if c.queue != [] && c.attached {
      var next := ReplayNext(c, saves);
      SendOffReplays(c, c.queue[0], [], true, saves);
      assert Replays(next) == {c.nextSend};
    }
  }

  lemma ReplayOfflineKeeps<V>(c: Client<V>, saves: bool)
    requires Sound(c)
    ensures Sound(ReplayOffline(c, saves))
    ensures ReplayInOrder(c) ==> ReplayInOrder(ReplayOffline(c, saves))
  {
    if !c.replaying {
      if c.attached {
        ReplayNextSound(c.(replaying := true), saves);
        if ReplayInOrder(c) {
          assert Replays(c.(replaying := true)) == Replays(c);
          ReplayNextInOrder(c.(replaying := true), saves);
        }
      } else {
        assert ReplayOffline(c, saves) == c;
      }
    }
  }

  lemma EndedSound<V>(c: Client<V>, id: nat)
    requires Sound(c) && id in c.sends
    ensures Sound(Ended(c, id))
    ensures Replays(Ended(c, id)) == Replays(c) - {id}
  {
    var sends := c.sends - {id};
    assert sends.Keys == c.sends.Keys - {id};
    assert |sends.Keys| == |c.sends.Keys| - 1;
  }

  lemma FinishSound<V>(c: Client<V>, id: nat, outcome: Outcome, saves: bool)
    requires Sound(c) && id in c.sends
    ensures Sound(Finish(c, id, outcome, saves))
  {
    EndedSound(c, id);
    if outcome == Queue {
      assert SendSound(c.origins, c.sends[id]);
      EnqueueSound(Ended(c, id), c.sends[id].mutation, saves);
    } else if c.sends[id].replay {
      PoppedSound(c, id, saves);
      ReplayNextSound(Popped(c, id, saves), saves);
    }
  }

  lemma EnqueueSound<V>(c: Client<V>, mutation: Queued<V>, saves: bool)
    requires Sound(c) && mutation.number < |c.origins|
    ensures Sound(Enqueue(c, mutation, saves))
  {
  }

  lemma PoppedSound<V>(c: Client<V>, id: nat, saves: bool)
    requires Sound(c) && id in c.sends
    ensures Sound(Popped(c, id, saves))
  {
    EndedSound(c, id);
  }

  lemma FinishInOrder<V>(c: Client<V>, id: nat, outcome: Outcome, saves: bool)
    requires Sound(c) && ReplayInOrder(c) && id in c.sends
    ensures ReplayInOrder(Finish(c, id, outcome, saves))
       <==> !(outcome == Queue && c.replaying && !c.sends[id].replay)
  {
    var send, next := c.sends[id], Finish(c, id, outcome, saves);
    EndedSound(c, id);
    if send.replay {
      assert id in Replays(c);
      assert Replays(Ended(c, id)) == {};
      if outcome == Settled {
        var popped := Persist(Ended(c, id).(queue := if c.queue == [] then [] else c.queue[1..],
                                            settled := c.settled + [send.mutation]), saves);
        assert Replays(popped) == Replays(Ended(c, id));
        ReplayNextInOrder(popped, saves);
      } else {
        assert Replays(next) == Replays(Ended(c, id));
      }
    } else {
      assert id !in Replays(c);
      assert Replays(next) == Replays(Ended(c, id)) == Replays(c);
      if c.replaying {
        var front :| Replays(c) == {front} && c.sends[front].mutation == c.queue[0];
        assert next.sends[front] == c.sends[front];
      }
    }
  }

  lemma AskingSends<V>(c: Client<V>, id: nat, request: Request<V>)
    requires id in c.sends
    ensures var next := Asking(c, id, request);
      && next.sends.Keys == c.sends.Keys
      && (forall i :: i in c.sends ==>
            && next.sends[i].replay == c.sends[i].replay && next.sends[i].mutation == c.sends[i].mutation
            && (i != id ==> next.sends[i] == c.sends[i]))
  {
  }

  lemma AskingKeeps<V>(c: Client<V>, id: nat, request: Request<V>)
    requires Sound(c) && id in c.sends
    requires AsksAtMostTwice(c.sends[id].(request := Some(request), calls := c.sends[id].calls + 1))
    ensures Sound(Asking(c, id, request))
    ensures ReplayInOrder(c) ==> ReplayInOrder(Asking(c, id, request))
  {
    var next := Asking(c, id, request);
    AskingSends(c, id, request);
    assert Replays(next) == Replays(c);
    if ReplayInOrder(c) && c.replaying {
      var front :| Replays(c) == {front} && c.sends[front].mutation == c.queue[0];
      assert next.sends[front].mutation == c.queue[0];
    }
  }

  lemma RejectKeeps<V>(c: Client<V>, mutation: Queued<V>, snapshots: seq<Snapshot<V>>)
    requires Sound(c)
    ensures Sound(Reject(c, mutation, snapshots)) && Sound(Invalidate(c, mutation))
    ensures ReplayInOrder(c) ==>
      ReplayInOrder(Reject(c, mutation, snapshots)) && ReplayInOrder(Invalidate(c, mutation))
  {
    assert Replays(Reject(c, mutation, snapshots)) == Replays(c) == Replays(Invalidate(c, mutation));
  }

  /** Every step of every run keeps the accounts: `pending` counts the sends in flight, the
      status shows the queue's length, and no delivery asks more than twice. */
  lemma StepSound<V>(c: Client<V>, event: Event<V>, saves: bool)
    requires Sound(c) && Enabled(c, event)
    ensures Sound(Step(c, event, saves))
  {
    match event
    case Mutate(mutation, optimistic) => MutateSound(c, mutation, optimistic, saves);
    case SetOnline(online) => ReplayOfflineKeeps(c.(online := online), saves);
    case Attach => ReplayOfflineKeeps(c.(attached := true), saves);
    case Register(_) =>
    case Written(_, _) =>
    case Poll(id) => PollSound(c, id, saves);
    case Answer(id, reply) => AnswerSound(c, id, reply, saves);
  }

  lemma PollSound<V>(c: Client<V>, id: nat, saves: bool)
    requires Sound(c) && Enabled(c, Poll(id))
    ensures Sound(OnPoll(c, id, saves))
  {
    var send := c.sends[id];
    assert SendSound(c.origins, send);
    if send.mutation.kind !in c.handlers {
      RejectKeeps(c, send.mutation, send.snapshots);
      FinishSound(Reject(c, send.mutation, send.snapshots), id, Settled, saves);
    } else {
      AskingKeeps(c, id, Request(send.mutation.kind, send.mutation.payload, false));
    }
  }

  lemma MutateSound<V>(c: Client<V>, mutation: Queued<V>, optimistic: seq<Change<V>>, saves: bool)
    requires Sound(c)
    ensures Sound(OnMutate(c, mutation, optimistic, saves))
  {
    var (cached, snapshots) := Optimistic(c.cached, optimistic);
    var shown, made := Shown(c, cached, optimistic), mutation.(number := |c.origins|);
    forall id | id in c.sends
      ensures SendSound(shown.origins, c.sends[id])
    {
      assert SendSound(c.origins, c.sends[id]);
    }
    if c.online {
      SendOffSound(shown, made, snapshots, false, saves);
    }
  }

  lemma AnswerSound<V>(c: Client<V>, id: nat, reply: Reply<V>, saves: bool)
    requires Sound(c) && Enabled(c, Answer(id, reply))
    ensures Sound(OnAnswer(c, id, reply, saves))
  {
    var send := c.sends[id];
    assert SendSound(c.origins, send);
    match Judge(c.policy, send.request.value, reply)
    case Accept =>
      RejectKeeps(c, send.mutation, send.snapshots);
      FinishSound(Invalidate(c, send.mutation), id, Settled, saves);
    case Refuse =>
      RejectKeeps(c, send.mutation, send.snapshots);
      FinishSound(Reject(c, send.mutation, send.snapshots), id, Settled, saves);
    case Requeue => FinishSound(c, id, Queue, saves);
    case AskAgain(request) => AskingKeeps(c, id, request);
  }

  /** A step keeps the replay in order if and only if it is not a direct send coming back
      unreachable during a replay. */
  lemma StepInOrder<V>(c: Client<V>, event: Event<V>, saves: bool)
    requires Sound(c) && ReplayInOrder(c) && Enabled(c, event)
    ensures ReplayInOrder(Step(c, event, saves)) <==> !BreaksReplay(c, event)
  {
    match event
    case Mutate(mutation, optimistic) => MutateInOrder(c, mutation, optimistic, saves);
    case SetOnline(online) =>
      assert Replays(c.(online := online)) == Replays(c);
      ReplayOfflineKeeps(c.(online := online), saves);
    case Attach =>
      assert Replays(c.(attached := true)) == Replays(c);
      ReplayOfflineKeeps(c.(attached := true), saves);
    case Register(kind) => assert Replays(c.(handlers := c.handlers + {kind})) == Replays(c);
    case Written(_, _) => assert Replays(Step(c, event, saves)) == Replays(c);
    case Poll(id) => PollInOrder(c, id, saves);
    case Answer(id, reply) => AnswerInOrder(c, id, reply, saves);
  }

  lemma PollInOrder<V>(c: Client<V>, id: nat, saves: bool)
    requires Sound(c) && ReplayInOrder(c) && Enabled(c, Poll(id))
    ensures ReplayInOrder(OnPoll(c, id, saves))
  {
    var send := c.sends[id];
    assert SendSound(c.origins, send);
    if send.mutation.kind !in c.handlers {
      RejectKeeps(c, send.mutation, send.snapshots);
      FinishInOrder(Reject(c, send.mutation, send.snapshots), id, Settled, saves);
    } else {
      AskingKeeps(c, id, Request(send.mutation.kind, send.mutation.payload, false));
    }
  }

  lemma MutateInOrder<V>(c: Client<V>, mutation: Queued<V>, optimistic: seq<Change<V>>, saves: bool)
    requires Sound(c) && ReplayInOrder(c)
    ensures ReplayInOrder(OnMutate(c, mutation, optimistic, saves))
  {
    var (cached, snapshots) := Optimistic(c.cached, optimistic);
    var next := OnMutate(c, mutation, optimistic, saves);
    var shown := Shown(c, cached, optimistic);
    assert Replays(shown) == Replays(c);
    if c.online && c.attached {
      MutateSound(c.(online := false), mutation, optimistic, saves);
      SendOffReplays(shown, mutation.(number := |c.origins|), snapshots, false, saves);
    } else {
      assert Replays(next) == Replays(c);
    }
    if c.replaying {
      var front :| Replays(c) == {front} && c.sends[front].mutation == c.queue[0];
      assert next.sends[front] == c.sends[front] && next.queue[0] == c.queue[0];
    }
  }

  lemma AnswerInOrder<V>(c: Client<V>, id: nat, reply: Reply<V>, saves: bool)
    requires Sound(c) && ReplayInOrder(c) && Enabled(c, Answer(id, reply))
    ensures ReplayInOrder(OnAnswer(c, id, reply, saves)) <==> !BreaksReplay(c, Answer(id, reply))
  {
    var send := c.sends[id];
    assert SendSound(c.origins, send);
    match Judge(c.policy, send.request.value, reply)
    case Accept =>
      RejectKeeps(c, send.mutation, send.snapshots);
      FinishInOrder(Invalidate(c, send.mutation), id, Settled, saves);
    case Refuse =>
      RejectKeeps(c, send.mutation, send.snapshots);
      FinishInOrder(Reject(c, send.mutation, send.snapshots), id, Settled, saves);
    case Requeue => FinishInOrder(c, id, Queue, saves);
    case AskAgain(request) => AskingKeeps(c, id, request);
  }

  /** What a restart would load is the queue in memory. */
  ghost predicate Stored<V>(c: Client<V>) {
    c.store.Store? && Loads(c.store) == c.queue
  }

  /** A replay in flight carries the queue's front. */
  ghost predicate CarriesFront<V>(c: Client<V>, id: nat)
    requires id in c.sends
  {
    c.sends[id].replay ==> c.queue != [] && c.sends[id].mutation == c.queue[0]
  }

  lemma FrontSettles<V>(c: Client<V>, id: nat, saves: bool)
    requires id in c.sends && c.sends[id].replay && CarriesFront(c, id) && NothingLost(c)
    ensures NothingLost(Popped(c, id, saves))
  {
    assert c.queue == [c.queue[0]] + c.queue[1..];
    assert c.settled + [c.queue[0]] + c.queue[1..] == c.settled + c.queue;
  }

  lemma FinishNothingLost<V>(c: Client<V>, id: nat, outcome: Outcome, saves: bool)
    requires id in c.sends && CarriesFront(c, id) && NothingLost(c)
    ensures NothingLost(Finish(c, id, outcome, saves))
  {
    if outcome == Settled && c.sends[id].replay {
      FrontSettles(c, id, saves);
    }
  }

  lemma StepNothingLost<V>(c: Client<V>, event: Event<V>, saves: bool)
    requires Sound(c) && ReplayInOrder(c) && NothingLost(c) && Enabled(c, event)
    ensures NothingLost(Step(c, event, saves))
  {
    match event
    case Mutate(_, _) =>
    case SetOnline(_) =>
    case Attach =>
    case Register(_) =>
    case Written(_, _) =>
    case Poll(id) => PollNothingLost(c, id, saves);
    case Answer(id, reply) => AnswerNothingLost(c, id, reply, saves);
  }

  lemma PollNothingLost<V>(c: Client<V>, id: nat, saves: bool)
    requires ReplayInOrder(c) && NothingLost(c) && id in c.sends
    ensures NothingLost(OnPoll(c, id, saves))
  {
    var send := c.sends[id];
    assert id in Replays(c) <==> send.replay;
    FinishNothingLost(Reject(c, send.mutation, send.snapshots), id, Settled, saves);
  }

  lemma AnswerNothingLost<V>(c: Client<V>, id: nat, reply: Reply<V>, saves: bool)
    requires ReplayInOrder(c) && NothingLost(c) && Enabled(c, Answer(id, reply))
    ensures NothingLost(OnAnswer(c, id, reply, saves))
  {
    var send := c.sends[id];
    assert id in Replays(c) <==> send.replay;
    match Judge(c.policy, send.request.value, reply)
    case Accept => FinishNothingLost(Invalidate(c, send.mutation), id, Settled, saves);
    case Refuse => FinishNothingLost(Reject(c, send.mutation, send.snapshots), id, Settled, saves);
    case Requeue => FinishNothingLost(c, id, Queue, saves);
    case AskAgain(request) => assert NothingLost(Asking(c, id, request));
  }

  lemma FinishStored<V>(c: Client<V>, id: nat, outcome: Outcome)
    requires id in c.sends && Stored(c)
    ensures Stored(Finish(c, id, outcome, true))
  {
    if outcome == Settled && c.sends[id].replay {
      assert Finish(c, id, outcome, true) == ReplayNext(Popped(c, id, true), true);
    }
  }

  lemma AnswerStored<V>(c: Client<V>, id: nat, reply: Reply<V>)
    requires Stored(c) && Enabled(c, Answer(id, reply))
    ensures Stored(OnAnswer(c, id, reply, true))
  {
    var send := c.sends[id];
    match Judge(c.policy, send.request.value, reply)
    case Accept => FinishStored(Invalidate(c, send.mutation), id, Settled);
    case Refuse => FinishStored(Reject(c, send.mutation, send.snapshots), id, Settled);
    case Requeue => FinishStored(c, id, Queue);
    case AskAgain(request) => assert Stored(Asking(c, id, request));
  }

  lemma StepStored<V>(c: Client<V>, event: Event<V>)
    requires Stored(c) && Enabled(c, event)
    ensures Stored(Step(c, event, true))
  {
    match event
    case Mutate(_, _) =>
    case SetOnline(_) =>
    case Attach =>
    case Register(_) =>
    case Written(_, _) =>
    case Poll(id) => FinishStored(Reject(c, c.sends[id].mutation, c.sends[id].snapshots), id, Settled);
    case Answer(id, reply) => AnswerStored(c, id, reply);
  }

  // ---------------------------------------------------------------------
  // Runs
  // ---------------------------------------------------------------------

  datatype Turn<!V> = Turn(event: Event<V>, saves: bool)

  predicate CanRun<V>(c: Client<V>, run: seq<Turn<V>>)
    decreases |run|
  {
    run == [] || (Enabled(c, run[0].event) && CanRun(Step(c, run[0].event, run[0].saves), run[1..]))
  }

  function Run<V>(c: Client<V>, run: seq<Turn<V>>): Client<V>
    requires CanRun(c, run)
    decreases |run|
  {
    if run == [] then c else Run(Step(c, run[0].event, run[0].saves), run[1..])
  }

  /** No direct send comes back unreachable during a replay. */
  predicate Unbroken<V>(c: Client<V>, run: seq<Turn<V>>)
    requires CanRun(c, run)
    decreases |run|
  {
    run == [] ||
    (!BreaksReplay(c, run[0].event) && Unbroken(Step(c, run[0].event, run[0].saves), run[1..]))
  }

  ghost predicate InOrderThroughout<V>(c: Client<V>, run: seq<Turn<V>>)
    requires CanRun(c, run)
    decreases |run|
  {
    ReplayInOrder(c) && (run != [] ==> InOrderThroughout(Step(c, run[0].event, run[0].saves), run[1..]))
  }

  lemma {:induction false} RunSound<V>(c: Client<V>, run: seq<Turn<V>>)
    requires Sound(c) && CanRun(c, run)
    ensures Sound(Run(c, run))
    decreases |run|
  {
    if run != [] {
      StepSound(c, run[0].event, run[0].saves);
      RunSound(Step(c, run[0].event, run[0].saves), run[1..]);
    }
  }

  /** The replay is in order throughout a run exactly when the run is unbroken. */
  lemma {:induction false} InOrderExactly<V>(c: Client<V>, run: seq<Turn<V>>)
    requires Sound(c) && ReplayInOrder(c) && CanRun(c, run)
    ensures InOrderThroughout(c, run) <==> Unbroken(c, run)
    decreases |run|
  {
    if run != [] {
      var next := Step(c, run[0].event, run[0].saves);
      StepSound(c, run[0].event, run[0].saves);
      StepInOrder(c, run[0].event, run[0].saves);
      if ReplayInOrder(next) {
        InOrderExactly(next, run[1..]);
      }
    }
  }

  lemma {:induction false} RunNothingLost<V>(c: Client<V>, run: seq<Turn<V>>)
    requires Sound(c) && ReplayInOrder(c) && NothingLost(c)
    requires CanRun(c, run) && Unbroken(c, run)
    ensures ReplayInOrder(Run(c, run)) && NothingLost(Run(c, run))
    decreases |run|
  {
    if run != [] {
      StepSound(c, run[0].event, run[0].saves);
      StepInOrder(c, run[0].event, run[0].saves);
      StepNothingLost(c, run[0].event, run[0].saves);
      RunNothingLost(Step(c, run[0].event, run[0].saves), run[1..]);
    }
  }

  lemma {:induction false} RunStored<V>(c: Client<V>, run: seq<Turn<V>>)
    requires Stored(c) && CanRun(c, run)
    requires forall i :: 0 <= i < |run| ==> run[i].saves
    ensures Stored(Run(c, run))
    decreases |run|
  {
    if run != [] {
      StepStored(c, run[0].event);
      RunStored(Step(c, run[0].event, run[0].saves), run[1..]);
    }
  }

  /** The offline queue, over every unbroken run from a restart: one replay at a time, of the
      queue's front; nothing queued is lost, repeated or reordered; and, while saves
      succeed, the store, if there is one, always holds what a restart needs. */
  lemma OfflineQueue<V>(store: Store<V>, policy: Policy<V>, run: seq<Turn<V>>)
    requires CanRun(Start(store, policy), run)
    ensures var c := Run(Start(store, policy), run);
      && c.pending == |c.sends| && c.queued == |c.queue|
      && (forall id :: id in c.sends ==> c.sends[id].calls <= 2)
    ensures Unbroken(Start(store, policy), run) ==>
      var c := Run(Start(store, policy), run);
      && (c.replaying ==> c.queue != [] && exists id :: Replays(c) == {id} && c.sends[id].mutation == c.queue[0])
      && (!c.replaying ==> Replays(c) == {})
      && c.settled + c.queue == c.everQueued
    ensures store.Store? && (forall i :: 0 <= i < |run| ==> run[i].saves) ==>
      Loads(Run(Start(store, policy), run).store) == Run(Start(store, policy), run).queue
  {
    var c := Start(store, policy);
    StartSound(store, policy);
    RunSound(c, run);
    if Unbroken(c, run) {
      RunNothingLost(c, run);
    }
    if store.Store? && forall i :: 0 <= i < |run| ==> run[i].saves {
      RunStored(c, run);
    }
    forall id | id in Run(c, run).sends
      ensures Run(c, run).sends[id].calls <= 2
    {
      assert SendSound(Run(c, run).origins, Run(c, run).sends[id]);
    }
  }

  lemma StartSound<V>(store: Store<V>, policy: Policy<V>)
    ensures var c := Start(store, policy);
      Sound(c) && ReplayInOrder(c) && NothingLost(c) && (store.Store? ==> Stored(c)) && Traced(c)
  {
    assert Replays(Start(store, policy)) == {};
  }

  // ---------------------------------------------------------------------
  // Rollback
  // ---------------------------------------------------------------------

  /** The mutation was in the offline queue at some time. */
  ghost predicate Waited<V>(c: Client<V>, number: nat) {
    exists i :: 0 <= i < |c.everQueued| && c.everQueued[i].number == number
  }

  /** Replays are of mutations that were queued; a direct send is of one that never was, and is the
      only one of it. */
  ghost predicate Traced<V>(c: Client<V>) {
    && (forall m :: m in c.queue ==> m in c.everQueued)
    && (forall i :: 0 <= i < |c.everQueued| ==> c.everQueued[i].number < |c.origins|)
    && (forall id :: id in c.sends ==> SendTraced(c, id))
  }

  ghost predicate SendTraced<V>(c: Client<V>, id: nat)
    requires id in c.sends
  {
    && c.sends[id].mutation.number < |c.origins|
    && if c.sends[id].replay then c.sends[id].mutation in c.everQueued
       else
         && !Waited(c, c.sends[id].mutation.number)
         && forall other :: other in c.sends && other != id && !c.sends[other].replay ==>
              c.sends[other].mutation.number != c.sends[id].mutation.number
  }

  lemma EnqueueTraced<V>(c: Client<V>, mutation: Queued<V>, saves: bool)
    requires Traced(c) && mutation.number < |c.origins|
    requires forall id :: id in c.sends && !c.sends[id].replay ==> c.sends[id].mutation.number != mutation.number
    ensures Traced(Enqueue(c, mutation, saves))
    ensures forall n :: Waited(Enqueue(c, mutation, saves), n) <==> Waited(c, n) || n == mutation.number
  {
    var next := Enqueue(c, mutation, saves);
    EverQueuedMore(c, next, mutation);
    forall id | id in next.sends
      ensures SendTraced(next, id)
    {
      assert SendTraced(c, id);
    }
  }

  lemma EverQueuedMore<V>(c: Client<V>, next: Client<V>, mutation: Queued<V>)
    requires next.everQueued == c.everQueued + [mutation]
    ensures forall n :: Waited(next, n) <==> Waited(c, n) || n == mutation.number
  {
    forall n
      ensures Waited(next, n) <==> Waited(c, n) || n == mutation.number
    {
      if Waited(c, n) {
        var i :| 0 <= i < |c.everQueued| && c.everQueued[i].number == n;
        assert next.everQueued[i].number == n;
      }
      assert next.everQueued[|c.everQueued|] == mutation;
    }
  }

  /** A client with another queue of mutations queued before, and the same sends but some that ended. */
  lemma FewerTraced<V>(c: Client<V>, next: Client<V>)
    requires Traced(c) && next.everQueued == c.everQueued && next.origins == c.origins
    requires forall m :: m in next.queue ==> m in c.queue
    requires forall id :: id in next.sends ==> id in c.sends && next.sends[id] == c.sends[id]
    ensures Traced(next)
  {
    forall id | id in next.sends
      ensures SendTraced(next, id)
    {
      assert SendTraced(c, id);
      assert Waited(next, next.sends[id].mutation.number) <==> Waited(c, c.sends[id].mutation.number);
    }
  }

  lemma SentTraced<V>(c: Client<V>, send: Send<V>)
    requires Sound(c) && Traced(c) && send.mutation.number < |c.origins|
    requires if send.replay then send.mutation in c.everQueued
      else !Waited(c, send.mutation.number)
           && forall id :: id in c.sends ==> c.sends[id].mutation.number != send.mutation.number
    ensures Traced(Sent(c, send))
  {
    var next := Sent(c, send);
    forall id | id in next.sends
      ensures SendTraced(next, id)
    {
      assert id in c.sends ==> SendTraced(c, id);
      assert forall n :: Waited(next, n) <==> Waited(c, n);
    }
  }

  lemma ReplayNextTraced<V>(c: Client<V>, saves: bool)
    requires Sound(c) && Traced(c)
    ensures Traced(ReplayNext(c, saves))
    ensures ReplayNext(c, saves).everQueued == c.everQueued
  {
    if c.queue != [] && c.attached {
      assert c.queue[0] in c.queue;
      SentTraced(c, Send(c.queue[0], [], true, None, 0));
    } else {
      FewerTraced(c, ReplayNext(c, saves));
    }
  }

  lemma ReplayOfflineTraced<V>(c: Client<V>, saves: bool)
    requires Sound(c) && Traced(c)
    requires c.attached || !c.replaying
    ensures Traced(ReplayOffline(c, saves))
    ensures ReplayOffline(c, saves).everQueued == c.everQueued
  {
    if !c.replaying {
      var next := c.(replaying := true);
      FewerTraced(c, next);
      if c.attached {
        ReplayNextTraced(next, saves);
      } else {
        FewerTraced(c, ReplayOffline(c, saves));
      }
    }
  }

  /** Which mutation, if any, the event sends back to wait: a direct one that finds the server
      unreachable. */
  predicate SendsBack<V>(c: Client<V>, event: Event<V>, number: nat) {
    && event.Answer? && event.reply.Unreachable?
    && event.id in c.sends && !c.sends[event.id].replay && c.sends[event.id].mutation.number == number
  }

  lemma FinishTraced<V>(c: Client<V>, id: nat, outcome: Outcome, saves: bool)
    requires Sound(c) && Traced(c) && id in c.sends
    ensures var next := Finish(c, id, outcome, saves);
      && Traced(next)
      && forall n :: Waited(next, n) <==>
           Waited(c, n) || (outcome == Queue && !c.sends[id].replay && c.sends[id].mutation.number == n)
  {
    if outcome == Settled && c.sends[id].replay {
      SettledTraced(c, id, saves);
    } else if outcome == Queue && !c.sends[id].replay {
      SentBackTraced(c, id, saves);
    } else {
      FewerTraced(c, Finish(c, id, outcome, saves));
    }
  }

  lemma SettledTraced<V>(c: Client<V>, id: nat, saves: bool)
    requires Sound(c) && Traced(c) && id in c.sends && c.sends[id].replay
    ensures Traced(Finish(c, id, Settled, saves))
    ensures forall n :: Waited(Finish(c, id, Settled, saves), n) <==> Waited(c, n)
  {
    var popped := Popped(c, id, saves);
    PoppedSound(c, id, saves);
    FewerTraced(c, popped);
    ReplayNextTraced(popped, saves);
  }

  lemma SentBackTraced<V>(c: Client<V>, id: nat, saves: bool)
    requires Sound(c) && Traced(c) && id in c.sends && !c.sends[id].replay
    ensures var next := Finish(c, id, Queue, saves);
      Traced(next) && forall n :: Waited(next, n) <==> Waited(c, n) || c.sends[id].mutation.number == n
  {
    var ended, mutation := Ended(c, id), c.sends[id].mutation;
    assert SendTraced(c, id);
    FewerTraced(c, ended);
    EnqueueTraced(ended, mutation, saves);
    FewerTraced(Enqueue(ended, mutation, saves), Finish(c, id, Queue, saves));
    forall n
      ensures Waited(Finish(c, id, Queue, saves), n) <==> Waited(c, n) || mutation.number == n
    {
      assert Waited(ended, n) <==> Waited(c, n);
      assert Waited(Finish(c, id, Queue, saves), n) <==> Waited(Enqueue(ended, mutation, saves), n);
    }
  }

  lemma MutateTraced<V>(c: Client<V>, mutation: Queued<V>, optimistic: seq<Change<V>>, saves: bool)
    requires Sound(c) && Traced(c)
    ensures var next := OnMutate(c, mutation, optimistic, saves);
      && Traced(next)
      && forall n :: Waited(next, n) <==> Waited(c, n) || (n == |c.origins| && !(c.online && c.attached))
  {
    var (cached, snapshots) := Optimistic(c.cached, optimistic);
    var shown, made := Shown(c, cached, optimistic), mutation.(number := |c.origins|);
    ShownTraced(c, cached, optimistic);
    MutateSound(c.(online := false), mutation, optimistic, saves);
    if c.online && c.attached {
      assert Sound(shown);
      SentTraced(shown, Send(made, snapshots, false, None, 0));
    } else {
      EnqueueTraced(shown, made, saves);
      FewerTraced(Enqueue(shown, made, saves), OnMutate(c, mutation, optimistic, saves));
    }
  }

  lemma ShownTraced<V>(c: Client<V>, cached: map<QueryKey, V>, optimistic: seq<Change<V>>)
    requires Sound(c) && Traced(c)
    ensures var shown := Shown(c, cached, optimistic);
      && Sound(shown) && Traced(shown)
      && (forall n :: Waited(shown, n) <==> Waited(c, n))
      && !Waited(shown, |c.origins|)
      && forall id :: id in shown.sends ==> shown.sends[id].mutation.number < |c.origins|
  {
    var shown := Shown(c, cached, optimistic);
    forall id | id in c.sends
      ensures SendTraced(shown, id) && SendSound(shown.origins, shown.sends[id])
    {
      assert SendTraced(c, id) && SendSound(c.origins, c.sends[id]);
      assert Waited(shown, c.sends[id].mutation.number) <==> Waited(c, c.sends[id].mutation.number);
    }
  }

  /** Every step keeps track, and lets wait exactly the mutations made with nowhere to send them
      and those that come back. */
  lemma StepTraced<V>(c: Client<V>, event: Event<V>, saves: bool)
    requires Sound(c) && Traced(c) && Enabled(c, event)
    ensures var next := Step(c, event, saves);
      && Traced(next)
      && forall n :: Waited(next, n) <==>
           || Waited(c, n) || SendsBack(c, event, n)
           || (event.Mutate? && n == |c.origins| && !(c.online && c.attached))
  {
    var next := Step(c, event, saves);
    match event
    case Mutate(mutation, optimistic) => MutateTraced(c, mutation, optimistic, saves);
    case SetOnline(online) =>
      FewerTraced(c, c.(online := online));
      ReplayOfflineTraced(c.(online := online), saves);
    case Attach =>
      FewerTraced(c, c.(attached := true));
      ReplayOfflineTraced(c.(attached := true), saves);
    case Register(_) => FewerTraced(c, next);
    case Written(_, _) => FewerTraced(c, next);
    case Poll(id) => PollTraced(c, id, saves);
    case Answer(id, reply) => AnswerTraced(c, id, reply, saves);
  }

  lemma AskingTraced<V>(c: Client<V>, id: nat, request: Request<V>)
    requires Traced(c) && id in c.sends
    ensures Traced(Asking(c, id, request))
    ensures forall n :: Waited(Asking(c, id, request), n) <==> Waited(c, n)
  {
    var next := Asking(c, id, request);
    AskingSends(c, id, request);
    forall i | i in next.sends
      ensures SendTraced(next, i)
    {
      assert SendTraced(c, i);
      assert Waited(next, c.sends[i].mutation.number) <==> Waited(c, c.sends[i].mutation.number);
    }
  }

  lemma PollTraced<V>(c: Client<V>, id: nat, saves: bool)
    requires Sound(c) && Traced(c) && id in c.sends
    ensures var next := OnPoll(c, id, saves);
      Traced(next) && forall n :: Waited(next, n) <==> Waited(c, n)
  {
    var send := c.sends[id];
    if send.mutation.kind !in c.handlers {
      RejectTraced(c, send.mutation, send.snapshots);
      FinishTraced(Reject(c, send.mutation, send.snapshots), id, Settled, saves);
    } else {
      AskingTraced(c, id, Request(send.mutation.kind, send.mutation.payload, false));
    }
  }

  lemma RejectTraced<V>(c: Client<V>, mutation: Queued<V>, snapshots: seq<Snapshot<V>>)
    requires Sound(c) && Traced(c)
    ensures var rejected := Reject(c, mutation, snapshots);
      Sound(rejected) && Traced(rejected) && forall n :: Waited(rejected, n) <==> Waited(c, n)
    ensures var invalidated := Invalidate(c, mutation);
      Sound(invalidated) && Traced(invalidated) && forall n :: Waited(invalidated, n) <==> Waited(c, n)
  {
    FewerTraced(c, Reject(c, mutation, snapshots));
    FewerTraced(c, Invalidate(c, mutation));
  }

  lemma AnswerTraced<V>(c: Client<V>, id: nat, reply: Reply<V>, saves: bool)
    requires Sound(c) && Traced(c) && Enabled(c, Answer(id, reply))
    ensures var next := OnAnswer(c, id, reply, saves);
      Traced(next) && forall n :: Waited(next, n) <==> Waited(c, n) || SendsBack(c, Answer(id, reply), n)
  {
    var send := c.sends[id];
    RejectTraced(c, send.mutation, send.snapshots);
    match Judge(c.policy, send.request.value, reply)
    case Accept => FinishTraced(Invalidate(c, send.mutation), id, Settled, saves);
    case Refuse => FinishTraced(Reject(c, send.mutation, send.snapshots), id, Settled, saves);
    case Requeue => FinishTraced(c, id, Queue, saves);
    case AskAgain(request) => AskingTraced(c, id, request);
  }

  /** The origins known stay known. */
  lemma StepRemembers<V>(c: Client<V>, event: Event<V>, saves: bool)
    requires Enabled(c, event)
    ensures c.origins <= Step(c, event, saves).origins
    ensures event.Mutate? ==>
      Step(c, event, saves).origins == c.origins + [Origin(c.cached, event.optimistic)]
  {
    match event
    case Poll(id) => FinishRemembers(Reject(c, c.sends[id].mutation, c.sends[id].snapshots), id, Settled, saves);
    case Answer(id, reply) =>
      var send := c.sends[id];
      FinishRemembers(Invalidate(c, send.mutation), id, Settled, saves);
      FinishRemembers(Reject(c, send.mutation, send.snapshots), id, Settled, saves);
      FinishRemembers(c, id, Queue, saves);
    case _ =>
  }

  lemma FinishRemembers<V>(c: Client<V>, id: nat, outcome: Outcome, saves: bool)
    requires id in c.sends
    ensures Finish(c, id, outcome, saves).origins == c.origins
    ensures Finish(c, id, outcome, saves).cached == c.cached
  {
    if outcome == Settled && c.sends[id].replay {
    }
  }

  /** A direct send of the mutation comes back during the run. */
  predicate ComesBack<V>(c: Client<V>, run: seq<Turn<V>>, number: nat)
    requires CanRun(c, run)
    decreases |run|
  {
    run != [] &&
    (SendsBack(c, run[0].event, number)
     || ComesBack(Step(c, run[0].event, run[0].saves), run[1..], number))
  }

  /** A mutation made before a run waits by its end exactly when it waited already or came back. */
  lemma {:induction false} RunTraced<V>(c: Client<V>, run: seq<Turn<V>>, number: nat)
    requires Sound(c) && Traced(c) && CanRun(c, run) && number < |c.origins|
    ensures Sound(Run(c, run)) && Traced(Run(c, run)) && c.origins <= Run(c, run).origins
    ensures Waited(Run(c, run), number) <==> Waited(c, number) || ComesBack(c, run, number)
    decreases |run|
  {
    if run != [] {
      var next := Step(c, run[0].event, run[0].saves);
      StepSound(c, run[0].event, run[0].saves);
      StepTraced(c, run[0].event, run[0].saves);
      StepRemembers(c, run[0].event, run[0].saves);
      RunTraced(next, run[1..], number);
    }
  }

  /** The event ends the send `id` by rejecting its mutation: nobody can send it, it is rejected, or it
      conflicts and the server's version stands or was to be overwritten already. */
  predicate Refuses<V>(c: Client<V>, event: Event<V>, id: nat) {
    && id in c.sends
    && match event
       case Poll(i) => i == id && c.sends[id].mutation.kind !in c.handlers && c.sends[id].request.None?
       case Answer(i, reply) =>
         && i == id && c.sends[id].request.Some?
         && (reply.Rejected? || (reply.Conflict? && (c.policy.ServerWins? || c.sends[id].request.value.force)))
       case _ => false
  }

  lemma RefusalRestores<V>(c: Client<V>, event: Event<V>, saves: bool, id: nat)
    requires Refuses(c, event, id)
    ensures Step(c, event, saves).cached == Restore(c.cached, c.sends[id].snapshots)
  {
    FinishRemembers(Reject(c, c.sends[id].mutation, c.sends[id].snapshots), id, Settled, saves);
  }

  /** The keys a mutation changed optimistically. */
  ghost function Changed<V>(origin: Origin<V>): set<QueryKey> {
    Touched(Replaced(origin))
  }

  /** Refusing a mutation, after any run from a restart in which entries are also written from
      outside: one that never waited in the queue has every entry it changed put back to its value
      before `mutate`, and no other changed; for one that did, nothing changes at all. */
  lemma RefusalIsRollback<V(!new)>(store: Store<V>, policy: Policy<V>, run: seq<Turn<V>>, refusal: Turn<V>, id: nat,
                                   key: QueryKey)
    requires CanRun(Start(store, policy), run)
    requires Refuses(Run(Start(store, policy), run), refusal.event, id)
    ensures var c := Run(Start(store, policy), run);
      var mutation := c.sends[id].mutation;
      && mutation.number < |c.origins|
      && (c.sends[id].replay <==> Waited(c, mutation.number))
      && var origin := c.origins[mutation.number];
         Get(Step(c, refusal.event, refusal.saves).cached, key)
         == Get(if key in Changed(origin) && !Waited(c, mutation.number) then origin.made else c.cached, key)
  {
    var begun := Start(store, policy);
    StartSound(store, policy);
    RunAllTraced(begun, run);
    var c := Run(begun, run);
    RefusalOf(c, refusal.event, refusal.saves, id, key);
  }

  lemma {:induction false} RunAllTraced<V>(c: Client<V>, run: seq<Turn<V>>)
    requires Sound(c) && Traced(c) && CanRun(c, run)
    ensures Sound(Run(c, run)) && Traced(Run(c, run)) && c.origins <= Run(c, run).origins
    decreases |run|
  {
    if run != [] {
      StepSound(c, run[0].event, run[0].saves);
      StepTraced(c, run[0].event, run[0].saves);
      StepRemembers(c, run[0].event, run[0].saves);
      RunAllTraced(Step(c, run[0].event, run[0].saves), run[1..]);
    }
  }

  lemma RefusalOf<V(!new)>(c: Client<V>, event: Event<V>, saves: bool, id: nat, key: QueryKey)
    requires Sound(c) && Traced(c) && Refuses(c, event, id)
    ensures var mutation := c.sends[id].mutation;
      && mutation.number < |c.origins|
      && (c.sends[id].replay <==> Waited(c, mutation.number))
      && var origin := c.origins[mutation.number];
         Get(Step(c, event, saves).cached, key)
         == Get(if key in Changed(origin) && !Waited(c, mutation.number) then origin.made else c.cached, key)
  {
    var send := c.sends[id];
    assert SendSound(c.origins, send) && SendTraced(c, id);
    if send.replay {
      var i :| 0 <= i < |c.everQueued| && c.everQueued[i] == send.mutation;
      assert Waited(c, send.mutation.number);
    }
    var origin := c.origins[send.mutation.number];
    OptimisticUndone(origin.made, origin.optimistic);
    RefusalRestores(c, event, saves, id);
  }

  /** What a refusal leaves of the mutation's entries, when the cache held `now` just before. */
  ghost predicate PutsBack<V>(c: Client<V>, event: Event<V>, saves: bool, id: nat, now: map<QueryKey, V>)
    requires Refuses(c, event, id) && c.sends[id].mutation.number < |c.origins|
  {
    var origin := c.origins[c.sends[id].mutation.number];
    forall key :: key in Changed(origin) ==>
      Get(Step(c.(cached := now), event, saves).cached, key) == Get(origin.made, key)
  }

  /** Rolling a mutation back, from when it is made to its refusal, whatever runs before, between
      and writes the cache meanwhile: its entries are sure to be put back exactly when it was made
      online with a background and never came back unreachable (or it changed none). */
  lemma RollsBack<V(!new)>(store: Store<V>, policy: Policy<V>, before: seq<Turn<V>>,
                           mutation: Queued<V>, optimistic: seq<Change<V>>, saves: bool,
                           run: seq<Turn<V>>, refusal: Turn<V>, id: nat)
    requires CanRun(Start(store, policy), before)
    requires CanRun(OnMutate(Run(Start(store, policy), before), mutation, optimistic, saves), run)
    requires var c := Run(Start(store, policy), before);
      var later := Run(OnMutate(c, mutation, optimistic, saves), run);
      Refuses(later, refusal.event, id) && later.sends[id].mutation.number == |c.origins|
    ensures var c := Run(Start(store, policy), before);
      var begun := OnMutate(c, mutation, optimistic, saves);
      var later := Run(begun, run);
      && |c.origins| < |later.origins| && later.origins[|c.origins|] == Origin(c.cached, optimistic)
      && ((forall now :: PutsBack(later, refusal.event, refusal.saves, id, now))
          <==> (c.online && c.attached && !ComesBack(begun, run, |c.origins|))
               || Changed(Origin(c.cached, optimistic)) == {})
  {
    var c := Run(Start(store, policy), before);
    StartSound(store, policy);
    RunAllTraced(Start(store, policy), before);
    var begun := OnMutate(c, mutation, optimistic, saves);
    MutateSound(c, mutation, optimistic, saves);
    MutateTraced(c, mutation, optimistic, saves);
    StepRemembers(c, Mutate(mutation, optimistic), saves);
    assert begun.origins[|c.origins|] == Origin(c.cached, optimistic);
    NeverWaitedYet(c);
    RunTraced(begun, run, |c.origins|);
    var later := Run(begun, run);
    assert later.origins[|c.origins|] == begun.origins[|c.origins|];
    PutsBackIff(later, refusal.event, refusal.saves, id);
  }

  lemma NeverWaitedYet<V>(c: Client<V>)
    requires Traced(c)
    ensures !Waited(c, |c.origins|)
  {
  }

  lemma PutsBackIff<V(!new)>(c: Client<V>, event: Event<V>, saves: bool, id: nat)
    requires Sound(c) && Traced(c) && Refuses(c, event, id)
    ensures c.sends[id].mutation.number < |c.origins|
    ensures (forall now :: PutsBack(c, event, saves, id, now))
       <==> !Waited(c, c.sends[id].mutation.number) || Changed(c.origins[c.sends[id].mutation.number]) == {}
  {
    assert SendSound(c.origins, c.sends[id]);
    var number := c.sends[id].mutation.number;
    var origin := c.origins[number];
    if !Waited(c, number) || Changed(origin) == {} {
      forall now
        ensures PutsBack(c, event, saves, id, now)
      {
        RefusalAt(c, event, saves, id, now);
      }
    } else {
      var key :| key in Changed(origin);
      var now := OtherThan(origin, key);
      RefusalAt(c, event, saves, id, now);
      assert !PutsBack(c, event, saves, id, now);
    }
  }

  lemma RefusalAt<V(!new)>(c: Client<V>, event: Event<V>, saves: bool, id: nat, now: map<QueryKey, V>)
    requires Sound(c) && Traced(c) && Refuses(c, event, id)
    ensures c.sends[id].mutation.number < |c.origins|
    ensures Refuses(c.(cached := now), event, id)
    ensures var number := c.sends[id].mutation.number;
      var origin := c.origins[number];
      forall key ::
        Get(Step(c.(cached := now), event, saves).cached, key)
        == Get(if key in Changed(origin) && !Waited(c, number) then origin.made else now, key)
  {
    var written := c.(cached := now);
    FewerTraced(c, written);
    var number := c.sends[id].mutation.number;
    assert SendSound(c.origins, c.sends[id]);
    assert Waited(written, number) <==> Waited(c, number);
    forall key
      ensures Get(Step(written, event, saves).cached, key)
           == Get(if key in Changed(c.origins[number]) && !Waited(c, number) then c.origins[number].made else now, key)
    {
      RefusalOf(written, event, saves, id, key);
    }
  }

  /** A cache that differs from the one a mutation was made on at a key it changed. */
  lemma OtherThan<V>(origin: Origin<V>, key: QueryKey) returns (now: map<QueryKey, V>)
    requires key in Changed(origin)
    ensures Get(now, key) != Get(origin.made, key)
  {
    if key in origin.made {
      now := map[];
    } else {
      now := Optimistic(origin.made, origin.optimistic).0;
      ChangedIsThere(origin.made, origin.optimistic, key);
    }
  }

  lemma {:induction false} ChangedIsThere<V>(made: map<QueryKey, V>, changes: seq<Change<V>>, key: QueryKey)
    requires key in Touched(Optimistic(made, changes).1) || key in made
    ensures key in Optimistic(made, changes).0
    decreases |changes|
  {
    if changes != [] {
      var change := changes[0];
      var before := Get(made, change.key);
      var after := change.apply(before);
      if after.None? {
        ChangedIsThere(made, changes[1..], key);
      } else {
        var next := SetData(made, change.key, after);
        var rest := Optimistic(next, changes[1..]).1;
        assert Touched([Snapshot(change.key, before)] + rest) == {change.key} + Touched(rest);
        ChangedIsThere(next, changes[1..], key);
      }
    }
  }

  // ---------------------------------------------------------------------
  // What each event does, exactly
  // ---------------------------------------------------------------------

  predicate Answers<V>(c: Client<V>, event: Event<V>, id: nat) {
    event.Answer? && event.id == id && id in c.sends && c.sends[id].request.Some?
  }

  predicate Accepts<V>(c: Client<V>, event: Event<V>, id: nat) {
    Answers(c, event, id) && event.reply.Accepted?
  }

  predicate FindsNobody<V>(c: Client<V>, event: Event<V>, id: nat) {
    Answers(c, event, id) && event.reply.Unreachable?
  }

  predicate Ends<V>(c: Client<V>, event: Event<V>, id: nat) {
    Accepts(c, event, id) || Refuses(c, event, id) || FindsNobody(c, event, id)
  }

  /** The event ends a replay whose mutation the server took or refused. */
  predicate SettlesReplay<V>(c: Client<V>, event: Event<V>) {
    && (event.Poll? || event.Answer?) && event.id in c.sends && c.sends[event.id].replay
    && (Accepts(c, event, event.id) || Refuses(c, event, event.id))
  }

  /** What the event makes the send `id` ask: its mutation as made, when it is first polled; and after a
      first conflict, unless the server's version stands, the same by force, its payload merged with the
      server's version if the policy says how. */
  function ToAsk<V>(c: Client<V>, event: Event<V>, id: nat): Option<Request<V>>
    requires id in c.sends
  {
    var mutation := c.sends[id].mutation;
    match event
    case Poll(i) =>
      if i == id && mutation.kind in c.handlers then Some(Request(mutation.kind, mutation.payload, false)) else None
    case Answer(i, Conflict(server)) =>
      if i != id || c.policy.ServerWins? || c.sends[id].request.None? || c.sends[id].request.value.force then None
      else if c.policy.Merge? then Some(Request(mutation.kind, c.policy.merge(mutation.payload, server), true))
      else Some(Request(mutation.kind, mutation.payload, true))
    case _ => None
  }

  /** The mutation that comes to wait: one made with nowhere to send it from, or offline, and one sent
      directly that found nobody. */
  function Waits<V>(c: Client<V>, event: Event<V>): Option<Queued<V>> {
    match event
    case Mutate(mutation, _) => if c.online && c.attached then None else Some(mutation.(number := |c.origins|))
    case Answer(id, Unreachable) => if id in c.sends && !c.sends[id].replay then Some(c.sends[id].mutation) else None
    case _ => None
  }

  function QueueAfter<V>(c: Client<V>, event: Event<V>): seq<Queued<V>> {
    if Waits(c, event).Some? then c.queue + [Waits(c, event).value]
    else if SettlesReplay(c, event) && c.queue != [] then c.queue[1..]
    else c.queue
  }

  /** Coming online, attaching or settling a replay sends the queue's front, when it has one. */
  predicate StartsReplay<V>(c: Client<V>, event: Event<V>) {
    && QueueAfter(c, event) != []
    && match event
       case SetOnline(online) => online && !c.online && c.attached && !c.replaying
       case Attach => !c.attached && c.online
       case _ => SettlesReplay(c, event)
  }

  /** The send that begins. */
  function Begins<V>(c: Client<V>, event: Event<V>): Option<Send<V>> {
    if StartsReplay(c, event) then Some(Send(QueueAfter(c, event)[0], [], true, None, 0))
    else if event.Mutate? && c.online && c.attached then
      Some(Send(event.mutation.(number := |c.origins|), Replaced(Origin(c.cached, event.optimistic)), false, None, 0))
    else None
  }

  ghost predicate SendsAsAsked<V>(c: Client<V>, event: Event<V>, after: Client<V>) {
    && after.nextSend == c.nextSend + (if Begins(c, event).Some? then 1 else 0)
    && forall id :: SendAsAsked(c, event, after, id)
  }

  /** A send lives until its answer ends it, changes only by asking, and is otherwise the one that begins. */
  ghost predicate SendAsAsked<V>(c: Client<V>, event: Event<V>, after: Client<V>, id: nat) {
    if id in c.sends && !Ends(c, event, id) then
      && id in after.sends
      && after.sends[id] == (match ToAsk(c, event, id)
                             case None => c.sends[id]
                             case Some(request) =>
                               c.sends[id].(request := Some(request), calls := c.sends[id].calls + 1))
    else if id == c.nextSend && Begins(c, event).Some? then
      id in after.sends && after.sends[id] == Begins(c, event).value
    else id !in after.sends
  }

  /** The queue, its store and the two flags: a save is tried whenever the queue changes; finding nobody
      is being offline, and ends the replay. */
  ghost predicate QueueAsAsked<V>(c: Client<V>, event: Event<V>, saves: bool, after: Client<V>) {
    var nobody := event.Answer? && FindsNobody(c, event, event.id);
    && after.queue == QueueAfter(c, event)
    && after.store == (if c.store.Store? && saves && (Waits(c, event).Some? || SettlesReplay(c, event)) then
                         Store(Some(QueueAfter(c, event)))
                       else c.store)
    && after.online == (if event.SetOnline? then event.online else c.online && !nobody)
    && after.replaying
       == (StartsReplayAfresh(c, event)
           || (c.replaying && !nobody && !(SettlesReplay(c, event) && QueueAfter(c, event) == [])))
    && (after.attached <==> c.attached || event.Attach?)
  }

  predicate StartsReplayAfresh<V>(c: Client<V>, event: Event<V>) {
    StartsReplay(c, event) && !SettlesReplay(c, event)
  }

  /** The counts, the caches made stale, and the values shown: a refusal counts; whatever is settled makes its
      queries stale; and an entry is changed by its own writes, by a mutation made, or by a refusal. */
  ghost predicate CacheAsAsked<V>(c: Client<V>, event: Event<V>, after: Client<V>) {
    var refused := (event.Poll? || event.Answer?) && Refuses(c, event, event.id);
    var accepted := event.Answer? && Accepts(c, event, event.id);
    && after.rejected == c.rejected + (if refused then 1 else 0)
    && after.invalidated
       == (if refused || accepted then c.invalidated + c.sends[event.id].mutation.invalidates else c.invalidated)
    && after.handlers == (if event.Register? then c.handlers + {event.kind} else c.handlers)
    && after.policy == c.policy
    && after.origins == (if event.Mutate? then c.origins + [Origin(c.cached, event.optimistic)] else c.origins)
    && (!refused ==> forall key :: Get(after.cached, key) == EntryAfter(c, event, key))
  }

  function EntryAfter<V>(c: Client<V>, event: Event<V>, key: QueryKey): Option<V> {
    match event
    case Mutate(_, optimistic) => ChangedBy(Get(c.cached, key), optimistic, key)
    case Written(k, data) => if k == key then data else Get(c.cached, key)
    case _ => Get(c.cached, key)
  }

  /** What the changes at one key make of its value, one after another; one that makes nothing changes
      nothing. */
  function ChangedBy<V>(value: Option<V>, changes: seq<Change<V>>, key: QueryKey): Option<V>
    decreases |changes|
  {
    if changes == [] then value
    else if changes[0].key != key || changes[0].apply(value).None? then ChangedBy(value, changes[1..], key)
    else ChangedBy(changes[0].apply(value), changes[1..], key)
  }

  lemma {:induction false} OptimisticByKey<V>(cached: map<QueryKey, V>, changes: seq<Change<V>>, key: QueryKey)
    ensures Get(Optimistic(cached, changes).0, key) == ChangedBy(Get(cached, key), changes, key)
    decreases |changes|
  {
    if changes != [] {
      var change := changes[0];
      var after := change.apply(Get(cached, change.key));
      OptimisticByKey(if after.None? then cached else SetData(cached, change.key, after), changes[1..], key);
    }
  }

  ghost predicate AsAsked<V>(c: Client<V>, event: Event<V>, saves: bool, after: Client<V>) {
    SendsAsAsked(c, event, after) && QueueAsAsked(c, event, saves, after) && CacheAsAsked(c, event, after)
  }

  /** How a task that ends leaves the sends and the queue. */
  lemma FinishAsAsked<V>(c: Client<V>, id: nat, outcome: Outcome, saves: bool)
    requires Sound(c) && id in c.sends
    ensures var send, after := c.sends[id], Finish(c, id, outcome, saves);
      var popped := outcome.Settled? && send.replay;
      var queue := if popped && c.queue != [] then c.queue[1..]
                   else if outcome.Queue? && !send.replay then c.queue + [send.mutation] else c.queue;
      && after == c.(queue := queue, sends := after.sends, nextSend := after.nextSend, pending := after.pending,
                     queued := after.queued, everQueued := after.everQueued, settled := after.settled,
                     replaying := c.replaying && outcome.Settled? && !(popped && queue == []),
                     online := c.online && outcome.Settled?, store := after.store)
      && after.store
         == (if c.store.Store? && saves && (popped || (outcome.Queue? && !send.replay)) then Store(Some(queue))
             else c.store)
      && after.nextSend == c.nextSend + (if popped && queue != [] then 1 else 0)
      && after.sends
         == (if popped && queue != [] then (c.sends - {id})[c.nextSend := Send(queue[0], [], true, None, 0)]
             else c.sends - {id})
  {
  }

  /** The client whose answered or unasked send finishes with its outcome. */
  function Concluded<V>(c: Client<V>, event: Event<V>, id: nat): Client<V>
    requires id in c.sends
  {
    if Refuses(c, event, id) then Reject(c, c.sends[id].mutation, c.sends[id].snapshots)
    else if Accepts(c, event, id) then Invalidate(c, c.sends[id].mutation)
    else c
  }

  lemma EndsByFinishing<V>(c: Client<V>, event: Event<V>, saves: bool)
    requires Sound(c) && Enabled(c, event) && (event.Poll? || event.Answer?) && Ends(c, event, event.id)
    ensures Sound(Concluded(c, event, event.id))
    ensures Step(c, event, saves)
         == Finish(Concluded(c, event, event.id), event.id, OutcomeOf(c, event), saves)
  {
    RejectKeeps(c, c.sends[event.id].mutation, c.sends[event.id].snapshots);
  }

  function OutcomeOf<V>(c: Client<V>, event: Event<V>): Outcome
    requires event.Poll? || event.Answer?
  {
    if FindsNobody(c, event, event.id) then Queue else Settled
  }

  /** Its outcome is what asks for the queue's change. */
  lemma OutcomeAsks<V>(c: Client<V>, event: Event<V>)
    requires Sound(c) && Enabled(c, event) && (event.Poll? || event.Answer?) && Ends(c, event, event.id)
    ensures var concluded, send := Concluded(c, event, event.id), c.sends[event.id];
      && Sound(concluded) && concluded == c.(rejected := concluded.rejected, invalidated := concluded.invalidated,
                                             cached := concluded.cached)
      && (SettlesReplay(c, event) <==> OutcomeOf(c, event).Settled? && send.replay)
      && Waits(c, event) == (if OutcomeOf(c, event).Queue? && !send.replay then Some(send.mutation) else None)
      && (StartsReplay(c, event) <==> SettlesReplay(c, event) && QueueAfter(c, event) != [])
      && (FindsNobody(c, event, event.id) <==> OutcomeOf(c, event).Queue?)
  {
    RejectKeeps(c, c.sends[event.id].mutation, c.sends[event.id].snapshots);
  }

  /** What the outcome leaves of the queue and the tasks. */
  lemma EndingLeaves<V>(c: Client<V>, event: Event<V>, saves: bool)
    requires Sound(c) && Enabled(c, event) && (event.Poll? || event.Answer?) && Ends(c, event, event.id)
    ensures var after := Finish(Concluded(c, event, event.id), event.id, OutcomeOf(c, event), saves);
      && after.queue == QueueAfter(c, event)
      && after.store == (if c.store.Store? && saves && (Waits(c, event).Some? || SettlesReplay(c, event)) then
                           Store(Some(QueueAfter(c, event)))
                         else c.store)
      && after.replaying == (c.replaying && OutcomeOf(c, event).Settled?
                             && !(SettlesReplay(c, event) && QueueAfter(c, event) == []))
      && after.online == (c.online && OutcomeOf(c, event).Settled?) && after.attached == c.attached
      && after.nextSend == c.nextSend + (if StartsReplay(c, event) then 1 else 0)
      && after.sends
         == (if StartsReplay(c, event) then
               (c.sends - {event.id})[c.nextSend := Send(QueueAfter(c, event)[0], [], true, None, 0)]
             else c.sends - {event.id})
  {
    OutcomeAsks(c, event);
    FinishAsAsked(Concluded(c, event, event.id), event.id, OutcomeOf(c, event), saves);
  }

  lemma EndingSends<V>(c: Client<V>, event: Event<V>, saves: bool)
    requires Sound(c) && Enabled(c, event) && (event.Poll? || event.Answer?) && Ends(c, event, event.id)
    ensures SendsAsAsked(c, event, Finish(Concluded(c, event, event.id), event.id, OutcomeOf(c, event), saves))
  {
    var after := Finish(Concluded(c, event, event.id), event.id, OutcomeOf(c, event), saves);
    OutcomeAsks(c, event);
    EndingLeaves(c, event, saves);
    assert Begins(c, event).Some? <==> StartsReplay(c, event);
    forall id: nat
      ensures SendAsAsked(c, event, after, id)
    {
      EndingSend(c, event, after, id);
    }
  }

  lemma EndingSend<V>(c: Client<V>, event: Event<V>, after: Client<V>, id: nat)
    requires Sound(c) && (event.Poll? || event.Answer?) && event.id in c.sends && Ends(c, event, event.id)
    requires Begins(c, event).Some? <==> StartsReplay(c, event)
    requires var others := c.sends - {event.id};
      after.sends == if StartsReplay(c, event) then others[c.nextSend := Begins(c, event).value] else others
    ensures SendAsAsked(c, event, after, id)
  {
    if id in c.sends && id != event.id {
      assert id < c.nextSend;
      assert ToAsk(c, event, id).None? && !Ends(c, event, id);
    }
  }

  lemma EndingQueue<V>(c: Client<V>, event: Event<V>, saves: bool)
    requires Sound(c) && Enabled(c, event) && (event.Poll? || event.Answer?) && Ends(c, event, event.id)
    ensures QueueAsAsked(c, event, saves, Finish(Concluded(c, event, event.id), event.id, OutcomeOf(c, event), saves))
  {
    OutcomeAsks(c, event);
    EndingLeaves(c, event, saves);
  }

  lemma ConcludedCache<V>(c: Client<V>, event: Event<V>)
    requires Enabled(c, event) && (event.Poll? || event.Answer?) && Ends(c, event, event.id)
    ensures CacheAsAsked(c, event, Concluded(c, event, event.id))
  {
  }

  lemma EndingCache<V>(c: Client<V>, event: Event<V>, saves: bool)
    requires Sound(c) && Enabled(c, event) && (event.Poll? || event.Answer?) && Ends(c, event, event.id)
    ensures CacheAsAsked(c, event, Finish(Concluded(c, event, event.id), event.id, OutcomeOf(c, event), saves))
  {
    ConcludedCache(c, event);
    OutcomeAsks(c, event);
    FinishLeaves(Concluded(c, event, event.id), event.id, OutcomeOf(c, event), saves);
  }

  lemma FinishLeaves<V>(c: Client<V>, id: nat, outcome: Outcome, saves: bool)
    requires Sound(c) && id in c.sends
    ensures var after := Finish(c, id, outcome, saves);
      && after.rejected == c.rejected && after.invalidated == c.invalidated && after.handlers == c.handlers
      && after.policy == c.policy && after.origins == c.origins && after.cached == c.cached
  {
    FinishAsAsked(c, id, outcome, saves);
  }

  lemma AsksByAsking<V>(c: Client<V>, event: Event<V>, saves: bool)
    requires Sound(c) && Enabled(c, event) && (event.Poll? || event.Answer?) && !Ends(c, event, event.id)
    ensures ToAsk(c, event, event.id).Some?
    ensures Step(c, event, saves) == Asking(c, event.id, ToAsk(c, event, event.id).value)
  {
    assert SendSound(c.origins, c.sends[event.id]);
  }

  lemma AsksAsAsked<V>(c: Client<V>, event: Event<V>, saves: bool)
    requires Sound(c) && Enabled(c, event) && (event.Poll? || event.Answer?) && !Ends(c, event, event.id)
    ensures AsAsked(c, event, saves, Step(c, event, saves))
  {
    AsksByAsking(c, event, saves);
    AskingOnly(c, event, event.id, ToAsk(c, event, event.id).value, saves);
    forall id: nat
      ensures SendAsAsked(c, event, Step(c, event, saves), id)
    {
      AskingSend(c, event, ToAsk(c, event, event.id).value, id);
    }
  }

  lemma AskingSend<V>(c: Client<V>, event: Event<V>, request: Request<V>, id: nat)
    requires (event.Poll? || event.Answer?) && event.id in c.sends && ToAsk(c, event, event.id) == Some(request)
    requires !Ends(c, event, event.id)
    ensures SendAsAsked(c, event, Asking(c, event.id, request), id)
  {
    assert Begins(c, event).None?;
    assert id in c.sends && id != event.id ==> ToAsk(c, event, id).None? && !Ends(c, event, id);
  }

  lemma AskingOnly<V>(c: Client<V>, event: Event<V>, id: nat, request: Request<V>, saves: bool)
    requires Sound(c) && Enabled(c, event) && (event.Poll? || event.Answer?) && event.id == id && !Ends(c, event, id)
    ensures QueueAsAsked(c, event, saves, Asking(c, id, request)) && CacheAsAsked(c, event, Asking(c, id, request))
  {
  }

  lemma MutatesAsAsked<V>(c: Client<V>, mutation: Queued<V>, optimistic: seq<Change<V>>, saves: bool)
    requires Sound(c)
    ensures AsAsked(c, Mutate(mutation, optimistic), saves, OnMutate(c, mutation, optimistic, saves))
  {
    forall key
      ensures Get(Optimistic(c.cached, optimistic).0, key) == ChangedBy(Get(c.cached, key), optimistic, key)
    {
      OptimisticByKey(c.cached, optimistic, key);
    }
    var after := OnMutate(c, mutation, optimistic, saves);
    forall id: nat
      ensures SendAsAsked(c, Mutate(mutation, optimistic), after, id)
    {
      assert id in c.sends ==> id < c.nextSend;
    }
  }

  lemma ConnectsAsAsked<V>(c: Client<V>, event: Event<V>, saves: bool)
    requires Sound(c) && (event.SetOnline? || event.Attach?)
    ensures AsAsked(c, event, saves, Step(c, event, saves))
  {
    var after := Step(c, event, saves);
    ConnectsByReplaying(c, event, saves);
    forall id: nat
      ensures SendAsAsked(c, event, after, id)
    {
      ConnectedSend(c, event, after, id);
    }
  }

  lemma ConnectsByReplaying<V>(c: Client<V>, event: Event<V>, saves: bool)
    requires Sound(c) && (event.SetOnline? || event.Attach?)
    ensures var connected := if event.Attach? then c.(attached := true) else c.(online := event.online);
      && QueueAfter(c, event) == c.queue
      && Step(c, event, saves)
         == if StartsReplay(c, event) then Sent(connected.(replaying := true), Send(c.queue[0], [], true, None, 0))
            else connected
  {
  }

  lemma ConnectedSend<V>(c: Client<V>, event: Event<V>, after: Client<V>, id: nat)
    requires Sound(c) && (event.SetOnline? || event.Attach?) && QueueAfter(c, event) == c.queue
    requires after.sends == if StartsReplay(c, event) then c.sends[c.nextSend := Send(c.queue[0], [], true, None, 0)]
                            else c.sends
    ensures SendAsAsked(c, event, after, id)
  {
    assert id in c.sends ==> id < c.nextSend;
  }

  lemma ChangesAsAsked<V>(c: Client<V>, event: Event<V>, saves: bool)
    requires event.Register? || event.Written?
    ensures AsAsked(c, event, saves, Step(c, event, saves))
  {
    forall id: nat
      ensures SendAsAsked(c, event, Step(c, event, saves), id)
    {
    }
  }

  lemma StepAsAsked<V>(c: Client<V>, event: Event<V>, saves: bool)
    requires Sound(c) && Enabled(c, event)
    ensures AsAsked(c, event, saves, Step(c, event, saves))
  {
    match event
    case Mutate(mutation, optimistic) => MutatesAsAsked(c, mutation, optimistic, saves);
    case SetOnline(_) => ConnectsAsAsked(c, event, saves);
    case Attach => ConnectsAsAsked(c, event, saves);
    case Register(_) => ChangesAsAsked(c, event, saves);
    case Written(_, _) => ChangesAsAsked(c, event, saves);
    case Poll(_) => TaskAsAsked(c, event, saves);
    case Answer(_, _) => TaskAsAsked(c, event, saves);
  }

  lemma TaskAsAsked<V>(c: Client<V>, event: Event<V>, saves: bool)
    requires Sound(c) && Enabled(c, event) && (event.Poll? || event.Answer?)
    ensures AsAsked(c, event, saves, Step(c, event, saves))
  {
    if Ends(c, event, event.id) {
      EndsByFinishing(c, event, saves);
      EndingSends(c, event, saves);
      EndingQueue(c, event, saves);
      EndingCache(c, event, saves);
    } else {
      AsksAsAsked(c, event, saves);
    }
  }

  /** Over every run from a restart, whatever happens next does exactly what it asks for. */
  lemma EveryEventAsAsked<V>(store: Store<V>, policy: Policy<V>, run: seq<Turn<V>>, turn: Turn<V>)
    requires CanRun(Start(store, policy), run) && Enabled(Run(Start(store, policy), run), turn.event)
    ensures var c := Run(Start(store, policy), run);
      c.policy == policy && AsAsked(c, turn.event, turn.saves, Step(c, turn.event, turn.saves))
  {
    StartSound(store, policy);
    RunSound(Start(store, policy), run);
    PolicyStays(Start(store, policy), run);
    StepAsAsked(Run(Start(store, policy), run), turn.event, turn.saves);
  }

  lemma {:induction false} PolicyStays<V>(c: Client<V>, run: seq<Turn<V>>)
    requires Sound(c) && CanRun(c, run)
    ensures Run(c, run).policy == c.policy
    decreases |run|
  {
    if run != [] {
      StepSound(c, run[0].event, run[0].saves);
      StepAsAsked(c, run[0].event, run[0].saves);
      PolicyStays(Step(c, run[0].event, run[0].saves), run[1..]);
    }
  }

  /** A conflict, after any run from a restart. When the server's version stands, or the send was by force
      already, its mutation is rejected: counted, its queries made stale, and the send over. Otherwise nothing
      is rejected and nothing shown changes: the same send asks again, by force, with the mutation's own
      payload, or with that merged with the server's version. */
  lemma ConflictByPolicy<V>(store: Store<V>, policy: Policy<V>, run: seq<Turn<V>>, id: nat, server: V, saves: bool)
    requires CanRun(Start(store, policy), run)
    requires var c := Run(Start(store, policy), run); id in c.sends && c.sends[id].request.Some?
    ensures var c := Run(Start(store, policy), run);
      var send, after := c.sends[id], Step(c, Answer(id, Conflict(server)), saves);
      if policy.ServerWins? || send.request.value.force then
        && Refuses(c, Answer(id, Conflict(server)), id)
        && after.rejected == c.rejected + 1 && id !in after.sends
        && after.invalidated == c.invalidated + send.mutation.invalidates
      else
        && after.rejected == c.rejected && after.invalidated == c.invalidated && after.queue == c.queue
        && (forall key :: Get(after.cached, key) == Get(c.cached, key))
        && id in after.sends && after.sends[id].calls == 2
        && after.sends[id].request == Some(Request(
             send.mutation.kind,
             if policy.Merge? then policy.merge(send.mutation.payload, server) else send.mutation.payload,
             true))
  {
    var c, event := Run(Start(store, policy), run), Answer(id, Conflict(server));
    EveryEventAsAsked(store, policy, run, Turn(event, saves));
    StartSound(store, policy);
    RunSound(Start(store, policy), run);
    assert SendSound(c.origins, c.sends[id]);
    assert SendAsAsked(c, event, Step(c, event, saves), id);
    assert id < c.nextSend;
    forall key
      ensures !Refuses(c, event, id) ==> Get(Step(c, event, saves).cached, key) == Get(c.cached, key)
    {
      assert EntryAfter(c, event, key) == Get(c.cached, key);
    }
  }

  /** When the server's version stands, nothing is ever asked twice, or by force. */
  lemma ServerWinsNeverForces<V>(store: Store<V>, policy: Policy<V>, run: seq<Turn<V>>, id: nat)
    requires policy.ServerWins? && CanRun(Start(store, policy), run)
    requires id in Run(Start(store, policy), run).sends
    ensures var send := Run(Start(store, policy), run).sends[id];
      && send.calls <= 1
      && (send.request.Some? ==> send.request.value == Request(send.mutation.kind, send.mutation.payload, false))
  {
    StartSound(store, policy);
    NeverForced(Start(store, policy), run);
    RunSound(Start(store, policy), run);
    var c := Run(Start(store, policy), run);
    assert SendSound(c.origins, c.sends[id]) && Gentle(c.sends[id]);
  }

  /** It never asked by force. */
  predicate Gentle<V>(send: Send<V>) {
    send.request.Some? ==> !send.request.value.force
  }

  lemma {:induction false} NeverForced<V>(c: Client<V>, run: seq<Turn<V>>)
    requires Sound(c) && CanRun(c, run) && c.policy.ServerWins?
    requires forall id :: id in c.sends ==> Gentle(c.sends[id])
    ensures forall id :: id in Run(c, run).sends ==> Gentle(Run(c, run).sends[id])
    decreases |run|
  {
    if run != [] {
      var next := Step(c, run[0].event, run[0].saves);
      StepSound(c, run[0].event, run[0].saves);
      StepAsAsked(c, run[0].event, run[0].saves);
      forall id | id in next.sends
        ensures Gentle(next.sends[id])
      {
        assert SendAsAsked(c, run[0].event, next, id);
      }
      NeverForced(next, run[1..]);
    }
  }

  /** Online with a background, nothing waits in the queue without being sent. */
  predicate Drains<V>(c: Client<V>) {
    c.online && c.attached && c.queue != [] ==> c.replaying
  }

  /** Over every run from a restart, broken or not: while the server can be reached and there is somewhere to
      send from, a queue that is not empty is being replayed. */
  lemma OnlineReplays<V>(store: Store<V>, policy: Policy<V>, run: seq<Turn<V>>)
    requires CanRun(Start(store, policy), run)
    ensures Drains(Run(Start(store, policy), run))
  {
    StartSound(store, policy);
    RunDrains(Start(store, policy), run);
  }

  lemma {:induction false} RunDrains<V>(c: Client<V>, run: seq<Turn<V>>)
    requires Sound(c) && Drains(c) && CanRun(c, run)
    ensures Drains(Run(c, run))
    decreases |run|
  {
    if run != [] {
      StepSound(c, run[0].event, run[0].saves);
      StepAsAsked(c, run[0].event, run[0].saves);
      RunDrains(Step(c, run[0].event, run[0].saves), run[1..]);
    }
  }

  // ---------------------------------------------------------------------
  // Why unbroken
  // ---------------------------------------------------------------------

  /** Some run takes `c` to `end`; `broken` if it breaks the replay. */
  ghost predicate Leads<V(!new)>(c: Client<V>, end: Client<V>, broken: bool) {
    exists run :: CanRun(c, run) && Run(c, run) == end && Unbroken(c, run) != broken
  }

  lemma LeadsStep<V(!new)>(c: Client<V>, event: Event<V>, next: Client<V>, end: Client<V>, broken: bool)
    requires Enabled(c, event) && Step(c, event, true) == next && Leads(next, end, broken)
    ensures Leads(c, end, broken || BreaksReplay(c, event))
  {
    var rest :| CanRun(next, rest) && Run(next, rest) == end && Unbroken(next, rest) != broken;
    var run := [Turn(event, true)] + rest;
    assert run[1..] == rest;
    assert CanRun(c, run);
  }

  /** A client of the example below: attached, with one handler registered. */
  function Moment(queue: seq<Queued<int>>, replaying: bool, online: bool, sends: map<nat, Send<int>>, nextSend: nat,
                  everQueued: seq<Queued<int>>, settled: seq<Queued<int>>, rejected: nat): Client<int>
  {
    Client({"known"}, ServerWins, queue, Store(Some(queue)), replaying, true, online, |sends|, |queue|, rejected,
           map[], sends, nextSend, everQueued, settled, if nextSend == 1 then [NOTHING, NOTHING] else THREE, [])
  }

  function Spawned<V>(mutation: Queued<V>, replay: bool): Send<V> {
    Send(mutation, [], replay, None, 0)
  }

  function Asked<V>(mutation: Queued<V>, replay: bool): Send<V> {
    Send(mutation, [], replay, Some(Request(mutation.kind, mutation.payload, false)), 1)
  }

  const NOTHING: Origin<int> := Origin(map[], [])
  const THREE: seq<Origin<int>> := [NOTHING, NOTHING, NOTHING]
  const FIRST: Queued<int> := Queued("unknown", 1, [], 0)
  const SECOND: Queued<int> := Queued("known", 2, [], 1)
  const THIRD: Queued<int> := Queued("known", 3, [], 2)
  const ALL := [FIRST, SECOND, THIRD]

  // The first mutation is being replayed when the third is sent directly.
  const M0 := Moment([FIRST, SECOND], true, true, map[0 := Spawned(FIRST, true)], 1, [FIRST, SECOND], [], 0)
  const M1 := Moment([FIRST, SECOND], true, true, map[0 := Spawned(FIRST, true), 1 := Spawned(THIRD, false)], 2,
                     [FIRST, SECOND], [], 0)
  const M2 := Moment([FIRST, SECOND], true, true, map[0 := Spawned(FIRST, true), 1 := Asked(THIRD, false)], 2,
                     [FIRST, SECOND], [], 0)
  // It comes back unreachable; back online, the first mutation is sent again.
  const M3 := Moment(ALL, false, false, map[0 := Spawned(FIRST, true)], 2, ALL, [], 0)
  const M4 := Moment(ALL, true, true, map[0 := Spawned(FIRST, true), 2 := Spawned(FIRST, true)], 3, ALL, [], 0)
  // Both sends of the first mutation settle, and each pops the queue.
  const M5 := Moment([SECOND, THIRD], true, true, map[2 := Spawned(FIRST, true), 3 := Spawned(SECOND, true)], 4,
                     ALL, [FIRST], 1)
  const M6 := Moment([THIRD], true, true, map[3 := Spawned(SECOND, true), 4 := Spawned(THIRD, true)], 5,
                     ALL, [FIRST, FIRST], 2)
  // The second mutation, popped already, comes back unreachable.
  const M7 := Moment([THIRD], true, true, map[3 := Asked(SECOND, true), 4 := Spawned(THIRD, true)], 5,
                     ALL, [FIRST, FIRST], 2)
  const M8 := Moment([THIRD], false, false, map[4 := Spawned(THIRD, true)], 5, ALL, [FIRST, FIRST], 2)

  lemma BrokenReplayBegins()
    ensures Step(M0, Mutate(THIRD, []), true) == M1
    ensures Step(M1, Poll(1), true) == M2
    ensures Step(M2, Answer(1, Unreachable), true) == M3
  {
    assert map[0 := Spawned(FIRST, true), 1 := Asked(THIRD, false)] - {1} == map[0 := Spawned(FIRST, true)];
    assert [FIRST, SECOND] + [THIRD] == ALL;
    assert [NOTHING, NOTHING] + [NOTHING] == THREE;
  }

  lemma BrokenReplayRepeats()
    ensures Step(M3, SetOnline(true), true) == M4
    ensures Step(M4, Poll(0), true) == M5
  {
    assert map[0 := Spawned(FIRST, true), 2 := Spawned(FIRST, true)] - {0} == map[2 := Spawned(FIRST, true)];
    assert ALL[1..] == [SECOND, THIRD];
    assert [] + [FIRST] == [FIRST];
  }

  lemma BrokenReplayPops()
    ensures Step(M5, Poll(2), true) == M6
  {
    assert map[2 := Spawned(FIRST, true), 3 := Spawned(SECOND, true)] - {2} == map[3 := Spawned(SECOND, true)];
    assert [SECOND, THIRD][1..] == [THIRD];
    assert [FIRST] + [FIRST] == [FIRST, FIRST];
  }

  lemma BrokenReplayEnds()
    ensures Step(M6, Poll(3), true) == M7
    ensures Step(M7, Answer(3, Unreachable), true) == M8
  {
    assert map[3 := Asked(SECOND, true), 4 := Spawned(THIRD, true)] - {3} == map[4 := Spawned(THIRD, true)];
  }

  lemma BrokenReplayRest()
    ensures Leads(M5, M8, false)
  {
    assert Leads(M8, M8, false) by {
      assert CanRun(M8, []) && Run(M8, []) == M8 && Unbroken(M8, []);
    }
    BrokenReplayEnds();
    LeadsStep(M7, Answer(3, Unreachable), M8, M8, false);
    LeadsStep(M6, Poll(3), M7, M8, false);
    BrokenReplayPops();
    LeadsStep(M5, Poll(2), M6, M8, false);
  }

  lemma BrokenReplayLeads()
    ensures Leads(M0, M8, true)
  {
    BrokenReplayRest();
    BrokenReplayRepeats();
    LeadsStep(M4, Poll(0), M5, M8, false);
    LeadsStep(M3, SetOnline(true), M4, M8, false);
    BrokenReplayBegins();
    LeadsStep(M2, Answer(1, Unreachable), M3, M8, false);
    LeadsStep(M1, Poll(1), M2, M8, true);
    LeadsStep(M0, Mutate(THIRD, []), M1, M8, true);
  }

  /** Without the premise a queued mutation is lost: the second one ends up neither queued,
      nor in flight, nor settled. */
  lemma BrokenReplayLosesMutation()
    ensures Leads(Start(Store(Some([FIRST, SECOND])), ServerWins), M8, true)
    ensures SECOND in M8.everQueued && SECOND !in M8.queue && SECOND !in M8.settled
    ensures forall id :: id in M8.sends ==> M8.sends[id].mutation != SECOND
  {
    assert SECOND == ALL[1];
    BrokenReplayLeads();
    var start := Start(Store(Some([FIRST, SECOND])), ServerWins);
    var registered := start.(handlers := {"known"});
    BrokenReplayStarts(start, registered);
    LeadsStep(registered, Attach, M0, M8, true);
    LeadsStep(start, Register("known"), registered, M8, true);
  }

  lemma BrokenReplayStarts(start: Client<int>, registered: Client<int>)
    requires start == Start(Store(Some([FIRST, SECOND])), ServerWins)
    requires registered == start.(handlers := {"known"})
    ensures Step(start, Register("known"), true) == registered
    ensures Step(registered, Attach, true) == M0
  {
    assert Numbered([FIRST, SECOND]) == [FIRST, SECOND];
    assert start.origins == [NOTHING, NOTHING];
    assert start.handlers + {"known"} == {"known"};
  }

  // ---------------------------------------------------------------------
  // The client
  // ---------------------------------------------------------------------

  // ---------------------------------------------------------------------
  // What queueing forgets
  // ---------------------------------------------------------------------

  const TITLE: QueryKey := ["title"]
  const RENAMED: seq<Change<int>> := [Change(TITLE, (_: Option<int>) => Some(2))]
  const RENAME: Queued<int> := Queued("known", 2, [], 0)

  /** A mutation that changed an entry from 1 to 2 comes back unreachable, is replayed, and is
      rejected: the entry stays 2. No step of the run breaks a replay. */
  lemma QueuedIsNotRolledBack()
    ensures exists end: Client<int> ::
      && Leads(Start(Store(None), ServerWins), end, false)
      && end.rejected == 1 && end.origins == [Origin(map[TITLE := 1], RENAMED)]
      && end.cached == map[TITLE := 2] && end.queue == [] && end.sends == map[]
  {
    var start: Client<int> := Start(Store(None), ServerWins);
    var ready := start.(handlers := {"known"}, attached := true, cached := map[TITLE := 1]);
    var made := ready.(cached := map[TITLE := 2], origins := [Origin(map[TITLE := 1], RENAMED)],
                       pending := 1, nextSend := 1,
                       sends := map[0 := Send(RENAME, [Snapshot(TITLE, Some(1))], false, None, 0)]);
    var asked := made.(sends := map[0 := Send(RENAME, [Snapshot(TITLE, Some(1))], false,
                                              Some(Request("known", 2, false)), 1)]);
    var back := made.(pending := 0, sends := map[], queue := [RENAME], everQueued := [RENAME], queued := 1,
                      store := Store(Some([RENAME])), online := false);
    var again := back.(online := true, replaying := true, pending := 1, nextSend := 2,
                       sends := map[1 := Send(RENAME, [], true, None, 0)]);
    var waiting := again.(sends := map[1 := Send(RENAME, [], true, Some(Request("known", 2, false)), 1)]);
    var end := back.(online := true, nextSend := 2, rejected := 1, settled := [RENAME], queue := [], queued := 0,
                     store := Store(Some([])));
    RenameIsMade(start, ready, made);
    assert Step(made, Poll(0), true) == asked;
    RenameComesBack(asked, back);
    assert Step(back, SetOnline(true), true) == again;
    assert Step(again, Poll(1), true) == waiting;
    RenameIsRefused(waiting, end);
    assert CanRun(end, []) && Run(end, []) == end && Unbroken(end, []);
    LeadsStep(waiting, Answer(1, Rejected), end, end, false);
    LeadsStep(again, Poll(1), waiting, end, false);
    LeadsStep(back, SetOnline(true), again, end, false);
    LeadsStep(asked, Answer(0, Unreachable), back, end, false);
    LeadsStep(made, Poll(0), asked, end, false);
    RenameBegins(start, ready, made, end);
  }

  lemma RenameIsMade(start: Client<int>, ready: Client<int>, made: Client<int>)
    requires start == Start(Store(None), ServerWins)
    requires ready == start.(handlers := {"known"}, attached := true, cached := map[TITLE := 1])
    requires made == ready.(cached := map[TITLE := 2], origins := [Origin(map[TITLE := 1], RENAMED)],
                            pending := 1, nextSend := 1,
                            sends := map[0 := Send(RENAME, [Snapshot(TITLE, Some(1))], false, None, 0)])
    ensures Step(ready, Mutate(RENAME, RENAMED), true) == made
  {
    assert RENAMED[1..] == [] && RENAMED[0].key == TITLE && RENAMED[0].apply(Some(1)) == Some(2);
    assert Get(map[TITLE := 1], TITLE) == Some(1);
    assert [Snapshot(TITLE, Some(1))] + [] == [Snapshot(TITLE, Some(1))];
    assert SetData(map[TITLE := 1], TITLE, Some(2)) == map[TITLE := 2];
    assert Optimistic(map[TITLE := 2], RENAMED[1..]) == (map[TITLE := 2], []);
    assert Optimistic(map[TITLE := 1], RENAMED) == (map[TITLE := 2], [Snapshot(TITLE, Some(1))]);
    assert start.origins == [];
  }

  lemma RenameComesBack(asked: Client<int>, back: Client<int>)
    requires asked.sends
          == map[0 := Send(RENAME, [Snapshot(TITLE, Some(1))], false, Some(Request("known", 2, false)), 1)]
    requires asked.queue == [] && asked.everQueued == [] && asked.store == Store(None) && asked.pending == 1
    requires !asked.replaying
    requires back == asked.(pending := 0, sends := map[], queue := [RENAME], everQueued := [RENAME], queued := 1,
                            store := Store(Some([RENAME])), online := false)
    ensures Step(asked, Answer(0, Unreachable), true) == back
  {
    assert asked.sends - {0} == map[];
    assert asked.everQueued + [RENAME] == [RENAME] && asked.queue + [RENAME] == [RENAME];
  }

  lemma RenameIsRefused(waiting: Client<int>, end: Client<int>)
    requires waiting.sends == map[1 := Send(RENAME, [], true, Some(Request("known", 2, false)), 1)]
    requires waiting.queue == [RENAME] && waiting.settled == [] && waiting.store == Store(Some([RENAME]))
    requires waiting.replaying && waiting.pending == 1 && waiting.rejected == 0 && waiting.policy == ServerWins
    requires waiting.invalidated == []
    requires end == waiting.(pending := 0, sends := map[], replaying := false, rejected := 1, settled := [RENAME],
                             queue := [], queued := 0, store := Store(Some([])))
    ensures Step(waiting, Answer(1, Rejected), true) == end
  {
    assert waiting.sends - {1} == map[];
    assert waiting.settled + [RENAME] == [RENAME];
    assert [RENAME][1..] == [];
  }

  lemma RenameBegins(start: Client<int>, ready: Client<int>, made: Client<int>, end: Client<int>)
    requires start == Start(Store(None), ServerWins)
    requires ready == start.(handlers := {"known"}, attached := true, cached := map[TITLE := 1])
    requires Step(ready, Mutate(RENAME, RENAMED), true) == made && Leads(made, end, false)
    ensures Leads(start, end, false)
  {
    var registered := start.(handlers := {"known"});
    var attached := registered.(attached := true);
    assert start.handlers + {"known"} == {"known"};
    assert Step(start, Register("known"), true) == registered;
    assert Step(registered, Attach, true) == attached;
    assert SetData(start.cached, TITLE, Some(1)) == map[TITLE := 1];
    assert Step(attached, Written(TITLE, Some(1)), true) == ready;
    LeadsStep(ready, Mutate(RENAME, RENAMED), made, end, false);
    LeadsStep(attached, Written(TITLE, Some(1)), ready, end, false);
    LeadsStep(registered, Attach, attached, end, false);
    LeadsStep(start, Register("known"), registered, end, false);
  }

  /** What optimistic updates leave and replace, with snapshots taken before them. */
  function After<V>(snapshots: seq<Snapshot<V>>, rest: (map<QueryKey, V>, seq<Snapshot<V>>))
    : (map<QueryKey, V>, seq<Snapshot<V>>)
  {
    (rest.0, snapshots + rest.1)
  }

  /** Optimistic updates go one by one. */
  lemma OptimisticNext<V>(cached: map<QueryKey, V>, changes: seq<Change<V>>, i: nat, snapshots: seq<Snapshot<V>>)
    requires i < |changes|
    ensures var key := changes[i].key;
      var before := Get(cached, key);
      var after := changes[i].apply(before);
      After(snapshots, Optimistic(cached, changes[i..]))
      == if after.None? then After(snapshots, Optimistic(cached, changes[i + 1..]))
         else After(snapshots + [Snapshot(key, before)], Optimistic(SetData(cached, key, after), changes[i + 1..]))
  {
    assert changes[i..][1..] == changes[i + 1..];
    var key := changes[i].key;
    var before := Get(cached, key);
    var after := changes[i].apply(before);
    if after.Some? {
      var rest := Optimistic(SetData(cached, key, after), changes[i + 1..]).1;
      assert snapshots + ([Snapshot(key, before)] + rest) == (snapshots + [Snapshot(key, before)]) + rest;
    }
  }

  /** The mutation side of a query client, with the fields the source updates in place. A
      method's `saves` is what its store makes of a save. */
  class QueryClient<V> {
    var handlers: set<string>
    var policy: Policy<V>
    var queue: seq<Queued<V>>
    var store: Store<V>
    var replaying: bool
    var attached: bool
    var online: bool
    var pending: int
    var queued: nat
    var rejected: nat
    var cached: map<QueryKey, V>
    var sends: map<nat, Send<V>>
    var nextSend: nat
    var invalidated: seq<QueryKey>
    var origins: seq<Origin<V>>
    ghost var everQueued: seq<Queued<V>>
    ghost var settled: seq<Queued<V>>

    ghost function View(): Client<V>
      reads this
    {
      Client(handlers, policy, queue, store, replaying, attached, online, pending, queued, rejected,
             cached, sends, nextSend, everQueued, settled, origins, invalidated)
    }

    constructor (store: Store<V>, policy: Policy<V>)
      ensures View() == Start(store, policy)
    {
      var loaded := Loads(Renumbered(store));
      this.policy, this.store, queue := policy, Renumbered(store), loaded;
      handlers, replaying, attached, online := {}, false, false, true;
      pending, queued, rejected := 0, |loaded|, 0;
      cached, sends, nextSend, invalidated := map[], map[], 0, [];
      origins := seq(|loaded|, i => Origin(map[], []));
      everQueued, settled := loaded, [];
    }

    method PersistQueue(saves: bool)
      modifies this
      ensures View() == Persist(old(View()), saves)
    {
      if store.Store? && saves {
        store := Store(Some(queue));
      }
      queued := |queue|;
    }

    method EnqueueLast(mutation: Queued<V>, saves: bool)
      modifies this
      ensures View() == Enqueue(old(View()), mutation, saves)
    {
      queue := queue + [mutation];
      everQueued := everQueued + [mutation];
      PersistQueue(saves);
    }

    method SendMutation(mutation: Queued<V>, snapshots: seq<Snapshot<V>>, replay: bool, saves: bool)
      modifies this
      ensures View() == SendOff(old(View()), mutation, snapshots, replay, saves)
    {
      if !attached {
        if !replay {
          EnqueueLast(mutation, saves);
        }
        replaying := false;
        return;
      }
      pending := pending + 1;
      sends := sends[nextSend := Send(mutation, snapshots, replay, None, 0)];
      nextSend := nextSend + 1;
    }

    /** Applies the optimistic updates one by one and sends the mutation, or queues it while offline. */
    method Mutate(mutation: Queued<V>, optimistic: seq<Change<V>>, saves: bool)
      modifies this
      ensures View() == OnMutate(old(View()), mutation, optimistic, saves)
    {
      var snapshots := ShowChanges(optimistic);
      var made := mutation.(number := |origins| - 1);
      if online {
        SendMutation(made, snapshots, false, saves);
      } else {
        EnqueueLast(made, saves);
      }
    }

    method ShowChanges(optimistic: seq<Change<V>>) returns (snapshots: seq<Snapshot<V>>)
      modifies this
      ensures var (left, replaced) := Optimistic(old(cached), optimistic);
        snapshots == replaced && View() == Shown(old(View()), left, optimistic)
    {
      var made := cached;
      snapshots := [];
      assert optimistic[0..] == optimistic;
      assert snapshots + Optimistic(made, optimistic).1 == Optimistic(made, optimistic).1;
      for i := 0 to |optimistic|
        invariant View() == old(View()).(cached := cached)
        invariant Optimistic(made, optimistic) == After(snapshots, Optimistic(cached, optimistic[i..]))
      {
        var change := optimistic[i];
        var before := Get(cached, change.key);
        var after := change.apply(before);
        OptimisticNext(cached, optimistic, i, snapshots);
        if after.Some? {
          cached := SetData(cached, change.key, after);
          snapshots := snapshots + [Snapshot(change.key, before)];
        }
      }
      assert optimistic[|optimistic|..] == [] && snapshots + [] == snapshots;
      origins := origins + [Origin(made, optimistic)];
    }

    /** Puts the snapshots back in reverse, counts the rejection, and invalidates. */
    method RejectMutation(mutation: Queued<V>, snapshots: seq<Snapshot<V>>)
      modifies this
      ensures View() == Reject(old(View()), mutation, snapshots)
    {
      var i := |snapshots|;
      assert snapshots[..i] == snapshots;
      while i > 0
        invariant 0 <= i <= |snapshots|
        invariant View() == old(View()).(cached := cached)
        invariant Restore(old(cached), snapshots) == Restore(cached, snapshots[..i])
      {
        i := i - 1;
        assert snapshots[..i + 1][..i] == snapshots[..i];
        cached := SetData(cached, snapshots[i].key, snapshots[i].before);
      }
      rejected := rejected + 1;
      invalidated := invalidated + mutation.invalidates;
    }

    method ReplayQueue(saves: bool)
      modifies this
      ensures View() == ReplayOffline(old(View()), saves)
    {
      if replaying {
        return;
      }
      replaying := true;
      ReplayFront(saves);
    }

    method ReplayFront(saves: bool)
      modifies this
      ensures View() == ReplayNext(old(View()), saves)
    {
      if queue != [] {
        SendMutation(queue[0], [], true, saves);
      } else {
        replaying := false;
      }
    }

    /** A replay settled: its mutation leaves the queue's front. */
    method PopFront(mutation: Queued<V>, saves: bool)
      modifies this
      ensures var c := old(View());
        View() == Persist(c.(queue := if c.queue == [] then [] else c.queue[1..],
                             settled := c.settled + [mutation]), saves)
    {
      if queue != [] {
        queue := queue[1..];
      }
      settled := settled + [mutation];
      PersistQueue(saves);
    }

    /** A spawned send's task once `deliver` returned `outcome`. */
    method FinishSend(id: nat, outcome: Outcome, saves: bool)
      requires id in sends
      modifies this
      ensures View() == Finish(old(View()), id, outcome, saves)
    {
      var send := sends[id];
      EndTask(id);
      match outcome
      case Settled =>
        if send.replay {
          PopFront(send.mutation, saves);
          ReplayFront(saves);
        }
      case Queue =>
        if !send.replay {
          EnqueueLast(send.mutation, saves);
        }
        replaying := false;
        online := false;
    }

    method EndTask(id: nat)
      requires id in sends
      modifies this
      ensures View() == Ended(old(View()), id)
    {
      sends := sends - {id};
      pending := pending - 1;
    }

    /** A send's task from its spawning to its first await. */
    method PollSend(id: nat, saves: bool)
      requires id in sends
      modifies this
      ensures View() == OnPoll(old(View()), id, saves)
    {
      var send := sends[id];
      if send.mutation.kind !in handlers {
        RejectMutation(send.mutation, send.snapshots);
        FinishSend(id, Settled, saves);
      } else {
        var request := Request(send.mutation.kind, send.mutation.payload, false);
        sends := sends[id := send.(request := Some(request), calls := send.calls + 1)];
      }
    }

    /** A send's task from its handler's answer to its next await, or its end. */
    method AnswerSend(id: nat, reply: Reply<V>, saves: bool)
      requires id in sends && sends[id].request.Some?
      modifies this
      ensures View() == OnAnswer(old(View()), id, reply, saves)
    {
      var send := sends[id];
      var request := send.request.value;
      match reply {
        case Accepted =>
          invalidated := invalidated + send.mutation.invalidates;
          FinishSend(id, Settled, saves);
          return;
        case Unreachable =>
          FinishSend(id, Queue, saves);
          return;
        case Conflict(server) =>
          if !request.force && !policy.ServerWins? {
            if policy.Merge? {
              request := request.(payload := policy.merge(request.payload, server));
            }
            request := request.(force := true);
            sends := sends[id := send.(request := Some(request), calls := send.calls + 1)];
            return;
          }
        case Rejected =>
      }
      RejectMutation(send.mutation, send.snapshots);
      FinishSend(id, Settled, saves);
    }

    /** A query's own write of an entry. */
    method Write(key: QueryKey, data: Option<V>)
      modifies this
      ensures View() == old(View()).(cached := SetData(old(cached), key, data))
    {
      cached := SetData(cached, key, data);
    }

    method SetReachable(reachable: bool, saves: bool)
      modifies this
      ensures View() == OnSetOnline(old(View()), reachable, saves)
    {
      var was := online;
      online := reachable;
      if reachable && !was {
        ReplayQueue(saves);
      }
    }

    method AttachBackground(saves: bool)
      modifies this
      ensures View() == OnAttach(old(View()), saves)
    {
      if attached {
        return;
      }
      attached := true;
      if online && queue != [] {
        ReplayQueue(saves);
      }
    }
  }
}
