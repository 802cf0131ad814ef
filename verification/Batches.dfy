/** Requests answered by one batch (`BatchLoader`, crates/rustnative-data/src/batch.rs). One step
    is the code between two awaits; a spawned task takes no step until it is started. */
module Batches {
  import opened Wrappers

  datatype QueryError = NotIncluded | Failed(reason: string)

  type Reply<K, V> = Result<map<K, V>, QueryError>

  /** What the reply to a batch gives the caller who asked for `key`. */
  function AnswerFor<K, V>(reply: Reply<K, V>, key: K): Result<V, QueryError> {
    match reply
    case Err(error) => Err(error)
    case Ok(values) => if key in values then Ok(values[key]) else Err(NotIncluded)
  }

  /** A value asked for, and the cell its answer is put in and taken from. */
  datatype Request<K, V> = Request(key: K, cell: Option<Result<V, QueryError>>)

  /** A key and whose cell its answer goes to, by the place of the request. */
  datatype Entry<K> = Entry(key: K, id: nat)

  /** A batch in flight, and the keys it asked for. */
  datatype Batch<K> = Batch(entries: seq<Entry<K>>, keys: seq<K>)

  /** `unstarted` counts the tasks spawned and not yet started; `running` are the batches in
      flight by number. */
  datatype Loader<K, V> = Loader(
    requests: seq<Request<K, V>>,
    pending: seq<Entry<K>>,
    scheduled: bool,
    unstarted: nat,
    running: map<nat, Batch<K>>,
    batches: nat)

  datatype Event<K, V> = Load(key: K) | Start | Answer(batch: nat, reply: Reply<K, V>) | Poll(id: nat)

  // ---------------------------------------------------------------------
  // Distinct keys
  // ---------------------------------------------------------------------

  /** The keys, each where it first is. */
  function Distinct<K(==)>(keys: seq<K>): (distinct: seq<K>)
    ensures (forall k :: k in distinct ==> k in keys) && (forall k :: k in keys ==> k in distinct)
    ensures forall i, j :: 0 <= i < j < |distinct| ==> distinct[i] != distinct[j]
  {
    if keys == [] then []
    else
      var before, last := Distinct(keys[..|keys| - 1]), keys[|keys| - 1];
      assert keys == keys[..|keys| - 1] + [last];
      if last in before then before else before + [last]
  }

  function KeysOf<K>(entries: seq<Entry<K>>): (keys: seq<K>)
    ensures |keys| == |entries| && forall i :: 0 <= i < |keys| ==> keys[i] == entries[i].key
  {
    if entries == [] then [] else [entries[0].key] + KeysOf(entries[1..])
  }

  // ---------------------------------------------------------------------
  // Steps
  // ---------------------------------------------------------------------

  function New<K, V>(): Loader<K, V> {
    Loader([], [], false, 0, map[], 0)
  }

  function Loaded<K, V>(s: Loader<K, V>, key: K): Loader<K, V> {
    s.(requests := s.requests + [Request(key, None)],
       pending := s.pending + [Entry(key, |s.requests|)],
       scheduled := true,
       unstarted := if s.scheduled then s.unstarted else s.unstarted + 1)
  }

  function Started<K(==), V>(s: Loader<K, V>): Loader<K, V> {
    if s.unstarted == 0 then s
    else
      s.(pending := [], scheduled := false, unstarted := s.unstarted - 1,
         running := s.running[s.batches := Batch(s.pending, Distinct(KeysOf(s.pending)))],
         batches := s.batches + 1)
  }

  /** Every entry's answer put in its cell. */
  function Filled<K, V>(requests: seq<Request<K, V>>, entries: seq<Entry<K>>, reply: Reply<K, V>)
      : (filled: seq<Request<K, V>>)
    ensures |filled| == |requests|
    decreases |entries|
  {
    if entries == [] then requests
    else
      var rest, last := Filled(requests, entries[..|entries| - 1], reply), entries[|entries| - 1];
      if last.id < |rest| then rest[last.id := rest[last.id].(cell := Some(AnswerFor(reply, last.key)))] else rest
  }

  function Answered<K, V>(s: Loader<K, V>, batch: nat, reply: Reply<K, V>): Loader<K, V> {
    if batch !in s.running then s
    else s.(requests := Filled(s.requests, s.running[batch].entries, reply), running := s.running - {batch})
  }

  function Polled<K, V>(s: Loader<K, V>, id: nat): (Loader<K, V>, Option<Result<V, QueryError>>) {
    if id < |s.requests| then
      (s.(requests := s.requests[id := s.requests[id].(cell := None)]), s.requests[id].cell)
    else (s, None)
  }

  /** What a poll delivered, and to whom. */
  datatype Delivery<V> = Delivery(id: nat, answer: Result<V, QueryError>)

  /** Where a request is: waiting, in a batch in flight, answered by it, or its answer taken. */
  datatype Stage = Waiting | InFlight(batch: nat) | Replied(batch: nat) | Taken(batch: nat)

  /** What has happened: each request's stage, each batch's reply, each delivery in order. */
  datatype Log<K, V> = Log(stages: seq<Stage>, replies: map<nat, Reply<K, V>>, deliveries: seq<Delivery<V>>)

  datatype World<K, V> = World(loader: Loader<K, V>, log: Log<K, V>)

  function Step<K(==), V>(w: World<K, V>, event: Event<K, V>): World<K, V> {
    match event
    case Load(key) => World(Loaded(w.loader, key), w.log.(stages := w.log.stages + [Waiting]))
    case Start =>
      World(Started(w.loader),
            if w.loader.unstarted == 0 then w.log
            else w.log.(stages := Moved(w.log.stages, Waiting, InFlight(w.loader.batches))))
    case Answer(batch, reply) =>
      World(Answered(w.loader, batch, reply),
            if batch !in w.loader.running then w.log
            else w.log.(stages := Moved(w.log.stages, InFlight(batch), Replied(batch)),
                        replies := w.log.replies[batch := reply]))
    case Poll(id) =>
      var (after, answer) := Polled(w.loader, id);
      World(after,
            if answer.None? || id >= |w.log.stages| || !w.log.stages[id].Replied? then w.log
            else w.log.(stages := w.log.stages[id := Taken(w.log.stages[id].batch)],
                        deliveries := w.log.deliveries + [Delivery(id, answer.value)]))
  }

  function Moved(stages: seq<Stage>, from: Stage, to: Stage): (moved: seq<Stage>)
    ensures |moved| == |stages|
    ensures forall i :: 0 <= i < |stages| ==> moved[i] == if stages[i] == from then to else stages[i]
  {
    if stages == [] then []
    else [if stages[0] == from then to else stages[0]] + Moved(stages[1..], from, to)
  }

  function Run<K(==), V>(w: World<K, V>, events: seq<Event<K, V>>): World<K, V>
    decreases |events|
  {
    if events == [] then w else Run(Step(w, events[0]), events[1..])
  }

  function Begin<K, V>(): World<K, V> {
    World(New(), Log([], map[], []))
  }

  // ---------------------------------------------------------------------
  // What every step keeps
  // ---------------------------------------------------------------------

  /** The entries are of requests at `stage`, all of them, in the order they were made. */
  ghost predicate Carries<K, V>(w: World<K, V>, entries: seq<Entry<K>>, stage: Stage)
    requires |w.log.stages| == |w.loader.requests|
  {
    && (forall e :: e in entries ==> Carried(w, e, stage))
    && (forall id :: 0 <= id < |w.log.stages| && w.log.stages[id] == stage ==>
          Entry(w.loader.requests[id].key, id) in entries)
    && (forall i, j :: 0 <= i < j < |entries| ==> entries[i].id < entries[j].id)
  }

  ghost predicate Carried<K, V>(w: World<K, V>, e: Entry<K>, stage: Stage)
    requires |w.log.stages| == |w.loader.requests|
  {
    e.id < |w.log.stages| && w.log.stages[e.id] == stage && w.loader.requests[e.id].key == e.key
  }

  /** One request's cell, and its stage. */
  ghost predicate CellRight<K, V>(w: World<K, V>, id: nat)
    requires |w.log.stages| == |w.loader.requests| && id < |w.log.stages|
  {
    match w.log.stages[id]
    case Waiting => w.loader.requests[id].cell.None?
    case InFlight(batch) => w.loader.requests[id].cell.None? && batch in w.loader.running
    case Replied(batch) =>
      batch in w.log.replies
      && w.loader.requests[id].cell == Some(AnswerFor(w.log.replies[batch], w.loader.requests[id].key))
    case Taken(batch) =>
      batch in w.log.replies && w.loader.requests[id].cell.None?
  }

  ghost predicate BatchRight<K, V>(w: World<K, V>, batch: nat)
    requires |w.log.stages| == |w.loader.requests| && batch in w.loader.running
  {
    var b := w.loader.running[batch];
    batch < w.loader.batches && b.entries != [] && b.keys == Distinct(KeysOf(b.entries))
    && Carries(w, b.entries, InFlight(batch))
  }

  /** The answer is what the reply has for the key: its value, that there is none, or the batch's error. */
  predicate Gives<K, V(==)>(reply: Reply<K, V>, key: K, answer: Result<V, QueryError>) {
    && (reply.Err? ==> answer == Err(reply.error))
    && (reply.Ok? && key in reply.value ==> answer == Ok(reply.value[key]))
    && (reply.Ok? && key !in reply.value ==> answer == Err(NotIncluded))
  }

  /** The delivery was of the answer the request's batch brought for its key, and is the only one
      to that request. */
  ghost predicate DeliveryRight<K, V>(w: World<K, V>, i: nat)
    requires |w.log.stages| == |w.loader.requests| && i < |w.log.deliveries|
  {
    var d := w.log.deliveries[i];
    && d.id < |w.log.stages| && w.log.stages[d.id].Taken?
    && w.log.stages[d.id].batch in w.log.replies
    && Gives(w.log.replies[w.log.stages[d.id].batch], w.loader.requests[d.id].key, d.answer)
    && forall j :: 0 <= j < i ==> w.log.deliveries[j].id != d.id
  }

  ghost predicate Delivered<K, V>(w: World<K, V>, id: nat) {
    exists i :: 0 <= i < |w.log.deliveries| && w.log.deliveries[i].id == id
  }

  ghost predicate PendingRight<K, V>(w: World<K, V>) {
    && |w.log.stages| == |w.loader.requests|
    && Carries(w, w.loader.pending, Waiting)
    && w.loader.scheduled == (w.loader.pending != [])
    && w.loader.unstarted == (if w.loader.scheduled then 1 else 0)
  }

  ghost predicate Inv<K, V>(w: World<K, V>) {
    && PendingRight(w)
    && (forall batch :: batch in w.loader.running ==> BatchRight(w, batch))
    && (forall batch :: batch in w.log.replies ==> batch < w.loader.batches && batch !in w.loader.running)
    && (forall id :: 0 <= id < |w.log.stages| ==> CellRight(w, id))
    && DeliveriesRight(w)
  }

  // ---------------------------------------------------------------------
  // What a step leaves alone
  // ---------------------------------------------------------------------

  /** The same requests, and maybe new ones, with the same ones at `stage`. */
  ghost predicate StageStays<K, V>(w: World<K, V>, w': World<K, V>, stage: Stage) {
    && |w.log.stages| == |w.loader.requests| && |w'.log.stages| == |w'.loader.requests|
    && |w.log.stages| <= |w'.log.stages|
    && (forall id :: 0 <= id < |w.log.stages| ==>
          w'.loader.requests[id].key == w.loader.requests[id].key
          && (w'.log.stages[id] == stage <==> w.log.stages[id] == stage))
    && (forall id :: |w.log.stages| <= id < |w'.log.stages| ==> w'.log.stages[id] != stage)
  }

  lemma CarriesStays<K, V>(w: World<K, V>, w': World<K, V>, entries: seq<Entry<K>>, stage: Stage)
    requires StageStays(w, w', stage) && Carries(w, entries, stage)
    ensures Carries(w', entries, stage)
  {
    forall e | e in entries
      ensures Carried(w', e, stage)
    {
      assert Carried(w, e, stage);
    }
  }

  lemma BatchStays<K, V>(w: World<K, V>, w': World<K, V>, batch: nat)
    requires StageStays(w, w', InFlight(batch))
    requires batch in w.loader.running && BatchRight(w, batch)
    requires batch in w'.loader.running && w'.loader.running[batch] == w.loader.running[batch]
    requires w.loader.batches <= w'.loader.batches
    ensures BatchRight(w', batch)
  {
    CarriesStays(w, w', w.loader.running[batch].entries, InFlight(batch));
  }

  /** Keys, replies, deliveries and what was taken stay as they are; more may be added. */
  ghost predicate Onward<K, V>(w: World<K, V>, w': World<K, V>) {
    && |w.log.stages| == |w.loader.requests| && |w'.log.stages| == |w'.loader.requests|
    && |w.log.stages| <= |w'.log.stages|
    && w.log.deliveries <= w'.log.deliveries
    && (forall batch :: batch in w.log.replies ==>
          batch in w'.log.replies && w'.log.replies[batch] == w.log.replies[batch])
    && (forall id :: 0 <= id < |w.log.stages| ==>
          w'.loader.requests[id].key == w.loader.requests[id].key
          && (w.log.stages[id].Taken? ==> w'.log.stages[id] == w.log.stages[id]))
  }

  lemma DeliveryStays<K, V>(w: World<K, V>, w': World<K, V>, i: nat)
    requires Onward(w, w') && i < |w.log.deliveries| && DeliveryRight(w, i)
    ensures DeliveryRight(w', i)
  {
    assert w'.log.deliveries[i] == w.log.deliveries[i];
    assert forall j :: 0 <= j < i ==> w'.log.deliveries[j] == w.log.deliveries[j];
  }

  lemma DeliveredStays<K, V>(w: World<K, V>, w': World<K, V>, id: nat)
    requires Onward(w, w') && Delivered(w, id)
    ensures Delivered(w', id)
  {
    var i :| 0 <= i < |w.log.deliveries| && w.log.deliveries[i].id == id;
    assert w'.log.deliveries[i].id == id;
  }

  ghost predicate DeliveriesRight<K, V>(w: World<K, V>)
    requires |w.log.stages| == |w.loader.requests|
  {
    && (forall i :: 0 <= i < |w.log.deliveries| ==> DeliveryRight(w, i))
    && (forall id :: 0 <= id < |w.log.stages| && w.log.stages[id].Taken? ==> Delivered(w, id))
  }

  lemma DeliveriesStay<K, V>(w: World<K, V>, w': World<K, V>)
    requires Onward(w, w') && DeliveriesRight(w)
    requires w'.log.deliveries == w.log.deliveries
    requires forall id :: 0 <= id < |w'.log.stages| && w'.log.stages[id].Taken? ==>
      id < |w.log.stages| && w.log.stages[id].Taken?
    ensures DeliveriesRight(w')
  {
    forall i | 0 <= i < |w'.log.deliveries|
      ensures DeliveryRight(w', i)
    {
      DeliveryStays(w, w', i);
    }
    forall id | 0 <= id < |w'.log.stages| && w'.log.stages[id].Taken?
      ensures Delivered(w', id)
    {
      DeliveredStays(w, w', id);
    }
  }

  // ---------------------------------------------------------------------
  // Each step
  // ---------------------------------------------------------------------

  lemma BeginIsRight<K, V>()
    ensures Inv<K, V>(Begin())
  {
  }

  lemma LoadKeeps<K, V>(w: World<K, V>, key: K)
    requires Inv(w)
    ensures Inv(Step(w, Load(key)))
  {
    var w' := Step(w, Load(key));
    LoadKeepsPending(w, key);
    LoadKeepsCells(w, key);
    LoadGoesOn(w, key);
    forall batch | batch in w'.loader.running
      ensures BatchRight(w', batch)
    {
      LoadKeepsStage(w, key, InFlight(batch));
      BatchStays(w, w', batch);
    }
    DeliveriesStay(w, w');
  }

  lemma LoadGoesOn<K, V>(w: World<K, V>, key: K)
    requires |w.log.stages| == |w.loader.requests|
    ensures Onward(w, Step(w, Load(key)))
  {
  }

  lemma LoadKeepsStage<K, V>(w: World<K, V>, key: K, stage: Stage)
    requires |w.log.stages| == |w.loader.requests| && stage != Waiting
    ensures StageStays(w, Step(w, Load(key)), stage)
  {
  }

  lemma LoadKeepsCells<K, V>(w: World<K, V>, key: K)
    requires |w.log.stages| == |w.loader.requests|
    requires forall id :: 0 <= id < |w.log.stages| ==> CellRight(w, id)
    ensures var w' := Step(w, Load(key));
      && |w'.log.stages| == |w'.loader.requests|
      && forall id :: 0 <= id < |w'.log.stages| ==> CellRight(w', id)
  {
    var w' := Step(w, Load(key));
    forall id | 0 <= id < |w'.log.stages|
      ensures CellRight(w', id)
    {
      assert id < |w.log.stages| ==> CellRight(w, id);
    }
  }

  lemma LoadKeepsPending<K, V>(w: World<K, V>, key: K)
    requires PendingRight(w)
    ensures PendingRight(Step(w, Load(key)))
  {
    var w' := Step(w, Load(key));
    var entry := Entry(key, |w.loader.requests|);
    assert w'.loader.pending == w.loader.pending + [entry];
    forall e | e in w'.loader.pending
      ensures Carried(w', e, Waiting)
    {
      assert e == entry || (e in w.loader.pending && Carried(w, e, Waiting));
    }
    forall i, j | 0 <= i < j < |w'.loader.pending|
      ensures w'.loader.pending[i].id < w'.loader.pending[j].id
    {
      assert w.loader.pending[i] in w.loader.pending;
      assert Carried(w, w.loader.pending[i], Waiting);
    }
    assert entry in w'.loader.pending;
    assert forall e :: e in w.loader.pending ==> e in w'.loader.pending;
  }

  lemma StartKeeps<K, V>(w: World<K, V>)
    requires Inv(w) && w.loader.unstarted > 0
    ensures Inv(Step(w, Start))
  {
    var w' := Step(w, Start);
    forall id | 0 <= id < |w.log.stages|
      ensures w.log.stages[id] != InFlight(w.loader.batches)
    {
      assert CellRight(w, id);
      assert w.log.stages[id].InFlight? ==> BatchRight(w, w.log.stages[id].batch);
    }
    StartKeepsPending(w);
    forall batch | batch in w'.loader.running
      ensures BatchRight(w', batch)
    {
      if batch != w.loader.batches {
        BatchStays(w, w', batch);
      }
    }
    DeliveriesStay(w, w');
    forall id | 0 <= id < |w'.log.stages|
      ensures CellRight(w', id)
    {
      assert CellRight(w, id);
    }
  }

  lemma StartKeepsPending<K, V>(w: World<K, V>)
    requires PendingRight(w) && w.loader.unstarted > 0
    requires forall id :: 0 <= id < |w.log.stages| ==> w.log.stages[id] != InFlight(w.loader.batches)
    ensures PendingRight(Step(w, Start))
    ensures BatchRight(Step(w, Start), w.loader.batches)
  {
    var w' := Step(w, Start);
    forall e | e in w.loader.pending
      ensures Carried(w', e, InFlight(w.loader.batches))
    {
      assert Carried(w, e, Waiting);
    }
  }

  /** A batch's answers are put in its own requests' cells and nowhere else. */
  lemma {:induction false} FilledAt<K, V>(requests: seq<Request<K, V>>, entries: seq<Entry<K>>,
                                               reply: Reply<K, V>, id: nat)
    requires id < |requests|
    requires forall e :: e in entries ==> e.id < |requests| && requests[e.id].key == e.key
    ensures Filled(requests, entries, reply)[id]
         == if Entry(requests[id].key, id) in entries
            then requests[id].(cell := Some(AnswerFor(reply, requests[id].key)))
            else requests[id]
    decreases |entries|
  {
    if entries != [] {
      var before, last := entries[..|entries| - 1], entries[|entries| - 1];
      assert entries == before + [last];
      FilledAt(requests, before, reply, id);
    }
  }

  lemma AnswerFills<K, V>(w: World<K, V>, batch: nat, reply: Reply<K, V>, id: nat)
    requires |w.log.stages| == |w.loader.requests| && id < |w.log.stages|
    requires batch in w.loader.running && BatchRight(w, batch)
    ensures Filled(w.loader.requests, w.loader.running[batch].entries, reply)[id]
         == if w.log.stages[id] == InFlight(batch)
            then w.loader.requests[id].(cell := Some(AnswerFor(reply, w.loader.requests[id].key)))
            else w.loader.requests[id]
  {
    var entries := w.loader.running[batch].entries;
    forall e | e in entries
      ensures e.id < |w.loader.requests| && w.loader.requests[e.id].key == e.key
    {
      assert Carried(w, e, InFlight(batch));
    }
    FilledAt(w.loader.requests, entries, reply, id);
    assert Entry(w.loader.requests[id].key, id) in entries ==>
        Carried(w, Entry(w.loader.requests[id].key, id), InFlight(batch));
  }

  /** What an answered batch changes: its requests' cells and stages, and that it ran. */
  ghost predicate AnsweredFrom<K, V>(w: World<K, V>, w': World<K, V>, batch: nat, reply: Reply<K, V>) {
    && |w.log.stages| == |w.loader.requests| == |w'.log.stages| == |w'.loader.requests|
    && (forall id :: 0 <= id < |w.log.stages| ==> AnsweredAt(w, w', batch, reply, id))
    && w'.log.deliveries == w.log.deliveries
    && w'.log.replies == w.log.replies[batch := reply]
    && w'.loader == w.loader.(requests := w'.loader.requests, running := w.loader.running - {batch})
  }

  ghost predicate AnsweredAt<K, V>(w: World<K, V>, w': World<K, V>, batch: nat, reply: Reply<K, V>, id: nat)
    requires |w.log.stages| == |w.loader.requests| == |w'.log.stages| == |w'.loader.requests| && id < |w.log.stages|
  {
    if w.log.stages[id] == InFlight(batch) then
      && w'.log.stages[id] == Replied(batch)
      && w'.loader.requests[id]
         == w.loader.requests[id].(cell := Some(AnswerFor(reply, w.loader.requests[id].key)))
    else
      w'.log.stages[id] == w.log.stages[id] && w'.loader.requests[id] == w.loader.requests[id]
  }

  lemma AnswerIsAnsweredFrom<K, V>(w: World<K, V>, batch: nat, reply: Reply<K, V>)
    requires |w.log.stages| == |w.loader.requests|
    requires batch in w.loader.running && BatchRight(w, batch)
    ensures AnsweredFrom(w, Step(w, Answer(batch, reply)), batch, reply)
  {
    var w' := Step(w, Answer(batch, reply));
    forall id | 0 <= id < |w.log.stages|
      ensures AnsweredAt(w, w', batch, reply, id)
    {
      AnswerFills(w, batch, reply, id);
    }
  }

  lemma AnsweredGoesOn<K, V>(w: World<K, V>, w': World<K, V>, batch: nat, reply: Reply<K, V>)
    requires |w.log.stages| == |w.loader.requests| && batch !in w.log.replies && AnsweredFrom(w, w', batch, reply)
    requires forall id :: 0 <= id < |w.log.stages| ==> CellRight(w, id)
    ensures Onward(w, w')
    ensures forall id :: 0 <= id < |w'.log.stages| ==> CellRight(w', id)
    ensures forall id :: 0 <= id < |w'.log.stages| && w'.log.stages[id].Taken? ==> w.log.stages[id].Taken?
  {
    forall id | 0 <= id < |w'.log.stages|
      ensures w'.loader.requests[id].key == w.loader.requests[id].key
      ensures w.log.stages[id].Taken? ==> w'.log.stages[id] == w.log.stages[id]
      ensures w'.log.stages[id].Taken? ==> w.log.stages[id].Taken?
      ensures CellRight(w', id)
    {
      AnsweredCell(w, w', batch, reply, id);
    }
  }

  lemma AnsweredCell<K, V>(w: World<K, V>, w': World<K, V>, batch: nat, reply: Reply<K, V>, id: nat)
    requires AnsweredFrom(w, w', batch, reply) && batch !in w.log.replies
    requires id < |w.log.stages| && CellRight(w, id)
    ensures w'.loader.requests[id].key == w.loader.requests[id].key
    ensures w.log.stages[id].Taken? ==> w'.log.stages[id] == w.log.stages[id]
    ensures w'.log.stages[id].Taken? ==> w.log.stages[id].Taken?
    ensures CellRight(w', id)
  {
    assert AnsweredAt(w, w', batch, reply, id);
  }

  lemma AnsweredKeepsStage<K, V>(w: World<K, V>, w': World<K, V>, batch: nat, reply: Reply<K, V>, stage: Stage)
    requires AnsweredFrom(w, w', batch, reply) && stage != InFlight(batch) && stage != Replied(batch)
    ensures StageStays(w, w', stage)
  {
    forall id | 0 <= id < |w.log.stages|
      ensures w'.loader.requests[id].key == w.loader.requests[id].key
      ensures w'.log.stages[id] == stage <==> w.log.stages[id] == stage
    {
      assert AnsweredAt(w, w', batch, reply, id);
    }
  }

  lemma AnsweredKeeps<K, V>(w: World<K, V>, w': World<K, V>, batch: nat, reply: Reply<K, V>)
    requires Inv(w) && batch in w.loader.running && AnsweredFrom(w, w', batch, reply)
    ensures Inv(w')
  {
    AnsweredGoesOn(w, w', batch, reply);
    AnsweredKeepsPending(w, w', batch, reply);
    AnsweredKeepsBatches(w, w', batch, reply);
    AnsweredKeepsReplies(w, w', batch, reply);
    DeliveriesStay(w, w');
  }

  lemma AnsweredKeepsPending<K, V>(w: World<K, V>, w': World<K, V>, batch: nat, reply: Reply<K, V>)
    requires PendingRight(w) && AnsweredFrom(w, w', batch, reply)
    ensures PendingRight(w')
  {
    AnsweredKeepsStage(w, w', batch, reply, Waiting);
    CarriesStays(w, w', w.loader.pending, Waiting);
  }

  lemma AnsweredKeepsReplies<K, V>(w: World<K, V>, w': World<K, V>, batch: nat, reply: Reply<K, V>)
    requires Inv(w) && batch in w.loader.running && AnsweredFrom(w, w', batch, reply)
    ensures forall other :: other in w'.log.replies ==> other < w'.loader.batches && other !in w'.loader.running
  {
    assert BatchRight(w, batch);
  }

  lemma AnsweredKeepsBatches<K, V>(w: World<K, V>, w': World<K, V>, batch: nat, reply: Reply<K, V>)
    requires AnsweredFrom(w, w', batch, reply)
    requires forall other :: other in w.loader.running ==> BatchRight(w, other)
    ensures forall other :: other in w'.loader.running ==> BatchRight(w', other)
  {
    forall other | other in w'.loader.running
      ensures BatchRight(w', other)
    {
      AnsweredKeepsStage(w, w', batch, reply, InFlight(other));
      BatchStays(w, w', other);
    }
  }

  lemma AnswerKeeps<K, V>(w: World<K, V>, batch: nat, reply: Reply<K, V>)
    requires Inv(w) && batch in w.loader.running
    ensures Inv(Step(w, Answer(batch, reply)))
  {
    assert BatchRight(w, batch);
    AnswerIsAnsweredFrom(w, batch, reply);
    AnsweredKeeps(w, Step(w, Answer(batch, reply)), batch, reply);
  }

  lemma PollGoesOn<K, V>(w: World<K, V>, id: nat)
    requires Inv(w) && id < |w.log.stages| && w.log.stages[id].Replied?
    ensures var w' := Step(w, Poll(id));
      && Onward(w, w')
      && |w'.log.stages| == |w.log.stages|
      && w'.log.stages == w.log.stages[id := Taken(w.log.stages[id].batch)]
      && (forall other :: 0 <= other < |w'.log.stages| ==> CellRight(w', other))
  {
    var w' := Step(w, Poll(id));
    assert CellRight(w, id);
    forall other | 0 <= other < |w'.log.stages|
      ensures CellRight(w', other)
    {
      assert CellRight(w, other);
    }
  }

  lemma PollKeeps<K, V>(w: World<K, V>, id: nat)
    requires Inv(w) && id < |w.log.stages| && w.log.stages[id].Replied?
    ensures Inv(Step(w, Poll(id)))
  {
    var w' := Step(w, Poll(id));
    PollGoesOn(w, id);
    CarriesStays(w, w', w.loader.pending, Waiting);
    forall batch | batch in w'.loader.running
      ensures BatchRight(w', batch)
    {
      BatchStays(w, w', batch);
    }
    PollKeepsDeliveries(w, id);
  }

  lemma PollKeepsDeliveries<K, V>(w: World<K, V>, id: nat)
    requires Inv(w) && id < |w.log.stages| && w.log.stages[id].Replied?
    ensures var w' := Step(w, Poll(id)); |w'.log.stages| == |w'.loader.requests| && DeliveriesRight(w')
  {
    var w' := Step(w, Poll(id));
    PollGoesOn(w, id);
    PollDelivers(w, id);
    forall i | 0 <= i < |w.log.deliveries|
      ensures DeliveryRight(w', i)
    {
      DeliveryStays(w, w', i);
    }
    forall other | 0 <= other < |w'.log.stages| && w'.log.stages[other].Taken?
      ensures Delivered(w', other)
    {
      if other != id {
        DeliveredStays(w, w', other);
      }
    }
  }

  lemma PollDelivers<K, V>(w: World<K, V>, id: nat)
    requires Inv(w) && id < |w.log.stages| && w.log.stages[id].Replied?
    ensures var w' := Step(w, Poll(id));
      && |w'.log.stages| == |w'.loader.requests|
      && |w'.log.deliveries| == |w.log.deliveries| + 1
      && DeliveryRight(w', |w.log.deliveries|) && Delivered(w', id)
  {
    assert CellRight(w, id);
    var w' := Step(w, Poll(id));
    assert w'.log.deliveries[|w.log.deliveries|].id == id;
    forall j | 0 <= j < |w.log.deliveries|
      ensures w'.log.deliveries[j].id != id
    {
      assert DeliveryRight(w, j);
    }
  }

  /** A poll that finds no answer changes nothing. */
  lemma NothingTaken<K, V>(s: Loader<K, V>, id: nat)
    requires id < |s.requests| && s.requests[id].cell.None?
    ensures Polled(s, id) == (s, None)
  {
    assert s.requests[id := s.requests[id]] == s.requests;
  }

  lemma PollWaits<K, V>(w: World<K, V>, id: nat)
    requires id < |w.log.stages| ==> id < |w.loader.requests|
    requires id < |w.loader.requests| ==> w.loader.requests[id].cell.None?
    ensures Step(w, Poll(id)) == w
  {
    if id < |w.loader.requests| {
      NothingTaken(w.loader, id);
    }
  }

  lemma StepKeeps<K, V>(w: World<K, V>, event: Event<K, V>)
    requires Inv(w)
    ensures Inv(Step(w, event))
  {
    match event
    case Load(key) => LoadKeeps(w, key);
    case Start =>
      if w.loader.unstarted > 0 {
        StartKeeps(w);
      }
    case Answer(batch, reply) =>
      if batch in w.loader.running {
        AnswerKeeps(w, batch, reply);
      }
    case Poll(id) =>
      if id < |w.log.stages| && w.log.stages[id].Replied? {
        PollKeeps(w, id);
      } else {
        assert id < |w.log.stages| ==> CellRight(w, id);
        PollWaits(w, id);
      }
  }

  lemma {:induction false} RunKeeps<K, V>(w: World<K, V>, events: seq<Event<K, V>>)
    requires Inv(w)
    ensures Inv(Run(w, events))
    decreases |events|
  {
    if events != [] {
      StepKeeps(w, events[0]);
      RunKeeps(Step(w, events[0]), events[1..]);
    }
  }

  // ---------------------------------------------------------------------
  // Over every run
  // ---------------------------------------------------------------------

  ghost predicate InPending<K, V>(s: Loader<K, V>, id: nat) {
    exists i :: 0 <= i < |s.pending| && s.pending[i].id == id
  }

  ghost predicate InBatch<K, V>(s: Loader<K, V>, batch: nat, id: nat) {
    batch in s.running && exists i :: 0 <= i < |s.running[batch].entries| && s.running[batch].entries[i].id == id
  }

  lemma CarriesIff<K, V>(w: World<K, V>, entries: seq<Entry<K>>, stage: Stage, id: nat)
    requires |w.log.stages| == |w.loader.requests| && id < |w.log.stages|
    requires Carries(w, entries, stage)
    ensures (exists i :: 0 <= i < |entries| && entries[i].id == id) <==> w.log.stages[id] == stage
    ensures forall i, j :: 0 <= i < j < |entries| ==> entries[i].id != entries[j].id
  {
    forall i | 0 <= i < |entries| && entries[i].id == id
      ensures w.log.stages[id] == stage
    {
      assert Carried(w, entries[i], stage);
    }
  }

  /** A request's stage is where it is. */
  lemma StageIsPlace<K, V>(w: World<K, V>, id: nat)
    requires Inv(w) && id < |w.log.stages|
    ensures InPending(w.loader, id) <==> w.log.stages[id] == Waiting
    ensures forall batch :: InBatch(w.loader, batch, id) <==> w.log.stages[id] == InFlight(batch)
    ensures w.loader.requests[id].cell.Some? <==> w.log.stages[id].Replied?
    ensures Delivered(w, id) <==> w.log.stages[id].Taken?
  {
    CarriesIff(w, w.loader.pending, Waiting, id);
    forall batch
      ensures InBatch(w.loader, batch, id) <==> w.log.stages[id] == InFlight(batch)
    {
      assert CellRight(w, id);
      if batch in w.loader.running {
        assert BatchRight(w, batch);
        CarriesIff(w, w.loader.running[batch].entries, InFlight(batch), id);
      }
    }
    assert CellRight(w, id);
    if Delivered(w, id) {
      var i :| 0 <= i < |w.log.deliveries| && w.log.deliveries[i].id == id;
      assert DeliveryRight(w, i);
    }
  }

  /** Whatever happens, every value asked for is in exactly one place: pending, in just one batch
      in flight, answered, or delivered; and there only once. */
  lemma AlwaysInOnePlace<K, V>(events: seq<Event<K, V>>, id: nat)
    requires id < |Run(Begin(), events).loader.requests|
    ensures var w := Run(Begin(), events);
      var flying := exists batch :: InBatch(w.loader, batch, id);
      && (if InPending(w.loader, id) then 1 else 0) + (if flying then 1 else 0)
         + (if w.loader.requests[id].cell.Some? then 1 else 0) + (if Delivered(w, id) then 1 else 0) == 1
      && (forall a, b :: InBatch(w.loader, a, id) && InBatch(w.loader, b, id) ==> a == b)
  {
    var w := Run(Begin(), events);
    BeginIsRight<K, V>();
    RunKeeps(Begin(), events);
    StageIsPlace(w, id);
    if w.log.stages[id].InFlight? {
      assert InBatch(w.loader, w.log.stages[id].batch, id);
    }
  }

  /** Each request is delivered to once at most, with what its own batch's reply has for its own
      key. */
  lemma EachGetsItsOwnOnce<K, V>(events: seq<Event<K, V>>)
    ensures var w := Run(Begin(), events);
      && |w.log.stages| == |w.loader.requests|
      && (forall i :: 0 <= i < |w.log.deliveries| ==> DeliveryRight(w, i))
      && (forall i, j :: 0 <= i < j < |w.log.deliveries| ==> w.log.deliveries[i].id != w.log.deliveries[j].id)
  {
    var w := Run(Begin(), events);
    BeginIsRight<K, V>();
    RunKeeps(Begin(), events);
    forall i, j | 0 <= i < j < |w.log.deliveries|
      ensures w.log.deliveries[i].id != w.log.deliveries[j].id
    {
      assert DeliveryRight(w, j);
    }
  }

  /** A request only ever waits, joins one batch, is answered by that batch, and has that answer
      taken. */
  lemma StagesAdvance<K, V>(w: World<K, V>, event: Event<K, V>, id: nat)
    requires id < |w.log.stages|
    ensures id < |Step(w, event).log.stages|
    ensures var before, after := w.log.stages[id], Step(w, event).log.stages[id];
      || after == before
      || (before == Waiting && event == Start && after == InFlight(w.loader.batches))
      || (before.InFlight? && event.Answer? && event.batch == before.batch && after == Replied(before.batch)
          && Step(w, event).log.replies == w.log.replies[before.batch := event.reply])
      || (before.Replied? && event == Poll(id) && after == Taken(before.batch))
  {
  }

  /** A batch is on its way exactly when something is pending, and is one; every batch in flight
      asks for the distinct keys of its own requests, each once. */
  lemma AlwaysScheduled<K, V>(events: seq<Event<K, V>>)
    ensures var s := Run(Begin(), events).loader;
      && (s.scheduled <==> s.pending != [])
      && s.unstarted == (if s.pending != [] then 1 else 0)
      && forall batch :: batch in s.running ==>
           var b := s.running[batch];
           && b.entries != []
           && (forall i, j :: 0 <= i < j < |b.keys| ==> b.keys[i] != b.keys[j])
           && (forall k :: k in b.keys ==> exists i :: 0 <= i < |b.entries| && b.entries[i].key == k)
           && (forall i :: 0 <= i < |b.entries| ==> b.entries[i].key in b.keys)
  {
    var w := Run(Begin(), events);
    BeginIsRight<K, V>();
    RunKeeps(Begin(), events);
    forall batch | batch in w.loader.running
      ensures var b := w.loader.running[batch];
        && b.entries != []
        && (forall i, j :: 0 <= i < j < |b.keys| ==> b.keys[i] != b.keys[j])
        && (forall k :: k in b.keys ==> exists i :: 0 <= i < |b.entries| && b.entries[i].key == k)
        && (forall i :: 0 <= i < |b.entries| ==> b.entries[i].key in b.keys)
    {
      assert BatchRight(w, batch);
      KeysAsked(w.loader.running[batch].entries);
    }
  }

  lemma KeysAsked<K>(entries: seq<Entry<K>>)
    ensures var keys := Distinct(KeysOf(entries));
      && (forall k :: k in keys ==> exists i :: 0 <= i < |entries| && entries[i].key == k)
      && (forall i :: 0 <= i < |entries| ==> entries[i].key in keys)
  {
    var all := KeysOf(entries);
    forall k | k in Distinct(all)
      ensures exists i :: 0 <= i < |entries| && entries[i].key == k
    {
      var i :| 0 <= i < |all| && all[i] == k;
      assert entries[i].key == k;
    }
    forall i | 0 <= i < |entries|
      ensures entries[i].key in Distinct(all)
    {
      assert all[i] in all;
    }
  }

  /** When no task waits to start and no batch is in flight, every value asked for has been
      answered. */
  lemma QuietMeansAnswered<K, V>(events: seq<Event<K, V>>, id: nat)
    requires var s := Run(Begin(), events).loader; s.unstarted == 0 && s.running == map[] && id < |s.requests|
    ensures var w := Run(Begin(), events); w.loader.requests[id].cell.Some? || Delivered(w, id)
  {
    var w := Run(Begin(), events);
    BeginIsRight<K, V>();
    RunKeeps(Begin(), events);
    StageIsPlace(w, id);
    assert !InPending(w.loader, id);
    assert forall batch :: !InBatch(w.loader, batch, id);
  }

  // ---------------------------------------------------------------------
  // One request for all
  // ---------------------------------------------------------------------

  function Loads<K, V>(keys: seq<K>): seq<Event<K, V>> {
    if keys == [] then [] else [Load(keys[0])] + Loads(keys[1..])
  }

  lemma {:induction false} KeysAppended<K>(entries: seq<Entry<K>>, entry: Entry<K>)
    ensures KeysOf(entries + [entry]) == KeysOf(entries) + [entry.key]
  {
  }

  /** Loads only add to what is pending, and schedule one task between them. */
  lemma {:induction false} LoadsArePending<K, V>(w: World<K, V>, keys: seq<K>)
    ensures var s := Run(w, Loads(keys)).loader;
      && KeysOf(s.pending) == KeysOf(w.loader.pending) + keys
      && s.running == w.loader.running && s.batches == w.loader.batches
    decreases |keys|
  {
    if keys != [] {
      var next := Step(w, Event<K, V>.Load(keys[0]));
      assert Loads<K, V>(keys)[0] == Load(keys[0]) && Loads<K, V>(keys)[1..] == Loads(keys[1..]);
      LoadsArePending(next, keys[1..]);
      KeysAppended(w.loader.pending, Entry(keys[0], |w.loader.requests|));
      assert keys == [keys[0]] + keys[1..];
    }
  }

  /** However many values are asked for before the task starts, it sends one request, for the
      distinct keys among them. */
  lemma OneRequestForAll<K, V>(w: World<K, V>, keys: seq<K>)
    requires Inv(w) && w.loader.pending == [] && keys != []
    ensures var s := Step(Run(w, Loads(keys)), Start).loader;
      && s.batches == w.loader.batches + 1
      && w.loader.batches in s.running && w.loader.batches !in w.loader.running
      && s.running - {w.loader.batches} == w.loader.running
      && KeysOf(s.running[w.loader.batches].entries) == keys
      && s.running[w.loader.batches].keys == Distinct(keys)
      && s.pending == [] && s.unstarted == 0
  {
    var w' := Run(w, Loads(keys));
    LoadsArePending(w, keys);
    RunKeeps(w, Loads(keys));
    assert KeysOf(w'.loader.pending) == keys;
    assert forall batch :: batch in w.loader.running ==> BatchRight(w, batch);
    SentAlone(w'.loader);
  }

  lemma SentAlone<K, V>(s: Loader<K, V>)
    requires s.unstarted > 0 && s.batches !in s.running
    ensures var s' := Started(s);
      && s'.batches == s.batches + 1 && s.batches in s'.running
      && s'.running[s.batches] == Batch(s.pending, Distinct(KeysOf(s.pending)))
      && s'.running - {s.batches} == s.running
      && s'.pending == [] && s'.unstarted == s.unstarted - 1
  {
    assert Started(s).running - {s.batches} == s.running;
  }

  // ---------------------------------------------------------------------
  // In place
  // ---------------------------------------------------------------------

  /** The keys kept when first seen. */
  method DistinctKeys<K(==)>(all: seq<K>) returns (keys: seq<K>)
    ensures keys == Distinct(all)
  {
    keys := [];
    var seen: set<K> := {};
    for i := 0 to |all|
      invariant keys == Distinct(all[..i])
      invariant forall k :: k in seen ==> k in keys
      invariant forall k :: k in keys ==> k in seen
    {
      DistinctNext(all, i);
      if all[i] !in seen {
        seen := seen + {all[i]};
        keys := keys + [all[i]];
      }
    }
    assert all[..|all|] == all;
  }

  lemma DistinctNext<K>(all: seq<K>, i: nat)
    requires i < |all|
    ensures var before := Distinct(all[..i]);
      Distinct(all[..i + 1]) == if all[i] in before then before else before + [all[i]]
  {
    assert all[..i + 1][..i] == all[..i];
  }

  class BatchLoader<K(==), V> {
    var requests: seq<Request<K, V>>
    var pending: seq<Entry<K>>
    var scheduled: bool
    var unstarted: nat
    var running: map<nat, Batch<K>>
    var batches: nat

    ghost function View(): Loader<K, V>
      reads this
    {
      Loader(requests, pending, scheduled, unstarted, running, batches)
    }

    constructor ()
      ensures View() == New()
    {
      requests, pending, scheduled, unstarted, running, batches := [], [], false, 0, map[], 0;
    }

    /** Asks for `key`'s value; answers whose cell it will be in. */
    method Load(key: K) returns (id: nat)
      modifies this
      ensures View() == Loaded(old(View()), key) && id == |old(requests)|
    {
      id := |requests|;
      requests := requests + [Request(key, None)];
      pending := pending + [Entry(key, id)];
      var was := scheduled;
      scheduled := true;
      if !was {
        unstarted := unstarted + 1;
      }
    }

    /** The task up to its request: answers the keys it sends. */
    method StartBatch() returns (keys: seq<K>)
      requires unstarted > 0
      modifies this
      ensures View() == Started(old(View()))
      ensures keys == Distinct(KeysOf(old(pending)))
    {
      unstarted := unstarted - 1;
      scheduled := false;
      var batch := pending;
      pending := [];
      keys := DistinctKeys(KeysOf(batch));
      running := running[batches := Batch(batch, keys)];
      batches := batches + 1;
    }

    /** The task from its reply on: every caller of the batch gets its own answer. */
    method AnswerBatch(number: nat, reply: Reply<K, V>)
      requires number in running
      requires forall e :: e in running[number].entries ==> e.id < |requests|
      modifies this
      ensures View() == Answered(old(View()), number, reply)
    {
      var entries := running[number].entries;
      running := running - {number};
      for i := 0 to |entries|
        invariant requests == Filled(old(requests), entries[..i], reply)
        invariant pending == old(pending) && scheduled == old(scheduled) && unstarted == old(unstarted)
        invariant running == old(running) - {number} && batches == old(batches)
      {
        assert entries[..i + 1][..i] == entries[..i];
        var entry := entries[i];
        assert entry in entries;
        var answer: Result<V, QueryError>;
        match reply {
          case Ok(values) =>
            answer := if entry.key in values then Ok(values[entry.key]) else Err(NotIncluded);
          case Err(error) =>
            answer := Err(error);
        }
        requests := requests[entry.id := requests[entry.id].(cell := Some(answer))];
      }
      assert entries[..|entries|] == entries;
    }

    /** A caller takes its answer, if there is one. */
    method PollFor(id: nat) returns (answer: Option<Result<V, QueryError>>)
      requires id < |requests|
      modifies this
      ensures (View(), answer) == Polled(old(View()), id)
    {
      answer := requests[id].cell;
      requests := requests[id := requests[id].(cell := None)];
    }
  }
}
