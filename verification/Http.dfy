/** The revalidating response cache and the retry interceptor
    (crates/rustnative-data/src/http.rs). A GET waits between sending its request and having
    its response, so GETs and the origin's changes interleave. */
module Http {
  import opened Sequences
  import opened Wrappers

  datatype Verb = Get | Head | Post | Put | Delete | Patch

  type Headers = seq<(string, string)>

  datatype Request = Request(verb: Verb, url: string, headers: Headers, body: seq<bv8>)

  datatype Response = Response(status: nat, headers: Headers, body: seq<bv8>)

  // ---------------------------------------------------------------------
  // Headers
  // ---------------------------------------------------------------------

  function LowerChar(c: char): char {
    if 'A' <= c <= 'Z' then c + ' ' else c
  }

  predicate SameName(a: string, b: string) {
    |a| == |b| && forall i :: 0 <= i < |a| ==> LowerChar(a[i]) == LowerChar(b[i])
  }

  /** The two cases of one letter. */
  predicate CasesOf(upper: char, lower: char) {
    'A' <= upper <= 'Z' && lower as int == upper as int + 32
  }

  /** Names are the same exactly when they differ in the case of letters A to Z only. */
  lemma SameNameIgnoresCase(a: string, b: string)
    ensures SameName(a, b)
       <==> |a| == |b| && forall i :: 0 <= i < |a| ==> a[i] == b[i] || CasesOf(a[i], b[i]) || CasesOf(b[i], a[i])
  {
    if |a| == |b| {
      forall i | 0 <= i < |a|
        ensures LowerChar(a[i]) == LowerChar(b[i]) <==> a[i] == b[i] || CasesOf(a[i], b[i]) || CasesOf(b[i], a[i])
      {
        SameLetter(a[i], b[i]);
      }
    }
  }

  lemma SameLetter(a: char, b: char)
    ensures LowerChar(a) == LowerChar(b) <==> a == b || CasesOf(a, b) || CasesOf(b, a)
  {
    assert 'A' <= a <= 'Z' ==> LowerChar(a) as int == a as int + 32;
    assert 'A' <= b <= 'Z' ==> LowerChar(b) as int == b as int + 32;
  }

  /** The value of the first header named `name`. */
  function Find(headers: Headers, name: string): Option<string> {
    if headers == [] then None
    else if SameName(headers[0].0, name) then Some(headers[0].1)
    else Find(headers[1..], name)
  }

  function Without(headers: Headers, name: string): Headers {
    if headers == [] then []
    else (if SameName(headers[0].0, name) then [] else [headers[0]]) + Without(headers[1..], name)
  }

  lemma {:induction false} FindAppended(headers: Headers, name: string, value: string, other: string)
    ensures Find(headers + [(name, value)], other)
         == if Find(headers, other).Some? then Find(headers, other)
            else if SameName(name, other) then Some(value) else None
  {
    if headers == [] {
      assert headers + [(name, value)] == [(name, value)];
    } else {
      assert (headers + [(name, value)])[1..] == headers[1..] + [(name, value)];
      FindAppended(headers[1..], name, value, other);
    }
  }

  lemma {:induction false} FindWithout(headers: Headers, name: string, other: string)
    ensures Find(Without(headers, name), other) == if SameName(name, other) then None else Find(headers, other)
  {
    if headers != [] {
      FindWithout(headers[1..], name, other);
      if !SameName(headers[0].0, name) {
        assert Without(headers, name)[1..] == Without(headers[1..], name);
      } else {
        assert Without(headers, name) == Without(headers[1..], name);
      }
    }
  }

  /** A copy of `request` whose only header `name` is `value`. */
  function WithHeader(request: Request, name: string, value: string): Request {
    request.(headers := Without(request.headers, name) + [(name, value)])
  }

  /** Setting a header sets it, and no other. */
  lemma WithHeaderSets(request: Request, name: string, value: string, other: string)
    ensures var copy := WithHeader(request, name, value);
      && copy.verb == request.verb && copy.url == request.url && copy.body == request.body
      && Find(copy.headers, other) == if SameName(name, other) then Some(value) else Find(request.headers, other)
  {
    FindWithout(request.headers, name, other);
    FindAppended(Without(request.headers, name), name, value, other);
  }

  method SetHeader(request: Request, name: string, value: string) returns (copy: Request)
    ensures copy == WithHeader(request, name, value)
  {
    var headers: Headers := [];
    for i := 0 to |request.headers|
      invariant headers + Without(request.headers[i..], name) == Without(request.headers, name)
    {
      WithoutAt(request.headers, name, i);
      Joined(headers, Without(request.headers[i..i + 1], name), Without(request.headers[i + 1..], name));
      if !SameName(request.headers[i].0, name) {
        headers := headers + [request.headers[i]];
      } else {
        assert headers + [] == headers;
      }
    }
    copy := Request(request.verb, request.url, headers + [(name, value)], request.body);
  }

  lemma WithoutAt(headers: Headers, name: string, i: nat)
    requires i < |headers|
    ensures Without(headers[i..i + 1], name) == if SameName(headers[i].0, name) then [] else [headers[i]]
    ensures Without(headers[i..], name) == Without(headers[i..i + 1], name) + Without(headers[i + 1..], name)
  {
    assert headers[i..][1..] == headers[i + 1..];
    assert headers[i..i + 1] == [headers[i]];
  }

  // ---------------------------------------------------------------------
  // The cache
  // ---------------------------------------------------------------------

  const IF_NONE_MATCH := "If-None-Match"
  const ETAG := "etag"

  /** For each URL, the tag and the response it came with. */
  type Entries = map<string, (string, Response)>

  type Cached = Option<(string, Response)>

  function Lookup(entries: Entries, url: string): Cached {
    if url in entries then Some(entries[url]) else None
  }

  /** What the cache has for a request: it looks only GETs up. */
  function CachedFor(entries: Entries, request: Request): Cached {
    if request.verb != Get then None else Lookup(entries, request.url)
  }

  /** The request that is sent on, given what the cache holds for its URL. */
  function Conditional(request: Request, cached: Cached): Request {
    if cached.Some? then WithHeader(request, IF_NONE_MATCH, cached.value.0) else request
  }

  function Answer(cached: Cached, response: Response): Response {
    if response.status == 304 && cached.Some? then cached.value.1 else response
  }

  /** What the cache holds once `response` came back. */
  function Remember(entries: Entries, request: Request, cached: Cached, response: Response): Entries {
    if request.verb != Get || (response.status == 304 && cached.Some?) then entries
    else
      var etag := Find(response.headers, ETAG);
      if etag.Some? && response.status == 200 then entries[request.url := (etag.value, response)] else entries
  }

  class ResponseCache {
    var entries: Entries

    constructor ()
      ensures entries == map[]
    {
      entries := map[];
    }

    /** A request up to its being sent on. */
    method Send(request: Request) returns (sent: Request, cached: Cached)
      ensures cached == CachedFor(entries, request)
      ensures sent == Conditional(request, cached)
    {
      sent, cached := request, None;
      if request.verb != Get {
        return;
      }
      if request.url in entries {
        cached := Some(entries[request.url]);
        sent := SetHeader(request, IF_NONE_MATCH, cached.value.0);
      }
    }

    /** A request from having its response. */
    method Receive(request: Request, cached: Cached, response: Response) returns (answer: Response)
      requires request.verb != Get ==> cached.None?
      modifies this
      ensures answer == Answer(cached, response)
      ensures entries == Remember(old(entries), request, cached, response)
    {
      if request.verb != Get {
        return response;
      }
      if response.status == 304 && cached.Some? {
        return cached.value.1;
      }
      var etag := FindHeader(response.headers, ETAG);
      if etag.Some? && response.status == 200 {
        entries := entries[request.url := (etag.value, response)];
      }
      return response;
    }
  }

  method FindHeader(headers: Headers, name: string) returns (value: Option<string>)
    ensures value == Find(headers, name)
  {
    for i := 0 to |headers|
      invariant Find(headers, name) == Find(headers[i..], name)
    {
      assert headers[i..][1..] == headers[i + 1..];
      if SameName(headers[i].0, name) {
        return Some(headers[i].1);
      }
    }
    return None;
  }

  // ---------------------------------------------------------------------
  // Requests, interleaved with an origin that changes
  // ---------------------------------------------------------------------
  /** Whether an origin holding `held` may answer a conditional request with 304 (section
      13.1.2 of RFC 9110). */
  predicate NotModified(held: Response, request: Request) {
    && held.status == 200
    && Find(held.headers, ETAG).Some?
    && Find(held.headers, ETAG) == Find(request.headers, IF_NONE_MATCH)
  }

  /** A request waiting for its response, or for the cache to deal with it; `held` is what the
      origin held when it answered, or, to other requests than GETs, what it answered. */
  datatype Flight =
    | Sent(request: Request, cached: Cached)
    | Answered(request: Request, cached: Cached, response: Response, held: Response)

  /** A request that is over: what it was answered with, and what the origin held when it answered. */
  datatype Done = Done(answer: Response, held: Response)

  /** `tagged` is every representation the origin ever tagged; `served` has each request as often as
      the origin answered it. */
  datatype World = World(
    entries: Entries, origin: map<string, Response>, tagged: map<(string, string), Response>,
    flights: map<nat, Flight>, done: map<nat, Done>, lost: set<nat>, begun: nat, served: multiset<nat>)

  datatype Event =
    | Begin(request: Request)
    | Change(url: string, representation: Response)
    | Reply(id: nat, notModified: Response)
    | ReplyInFull(id: nat)
    | Respond(id: nat, response: Response)
    | Lose(id: nat)
    | End(id: nat)

  /** The tag a full response to a GET of the URL would be cached under. */
  function TagOf(response: Response): Option<string> {
    if response.status == 200 then Find(response.headers, ETAG) else None
  }

  /** What the origin, the network and the callers may do: a tag never names a second
      representation of its URL, a representation is not itself a 304, and callers set no
      If-None-Match. GETs are answered from the origin's representations, other requests with
      anything; any request may be lost, before the origin answers it or after. */
  predicate Enabled(w: World, event: Event) {
    match event
    case Begin(request) =>
      Find(request.headers, IF_NONE_MATCH) == None && (request.verb == Get ==> request.url in w.origin)
    case Change(url, representation) =>
      && representation.status != 304
      && (TagOf(representation).Some? && (url, TagOf(representation).value) in w.tagged ==>
            w.tagged[(url, TagOf(representation).value)] == representation)
    case Reply(id, notModified) =>
      && id in w.flights && w.flights[id].Sent? && w.flights[id].request.verb == Get
      && w.flights[id].request.url in w.origin
      && notModified.status == 304
      && NotModified(w.origin[w.flights[id].request.url], w.flights[id].request)
    case ReplyInFull(id) =>
      && id in w.flights && w.flights[id].Sent? && w.flights[id].request.verb == Get
      && w.flights[id].request.url in w.origin
    case Respond(id, _) => id in w.flights && w.flights[id].Sent? && w.flights[id].request.verb != Get
    case Lose(id) => id in w.flights
    case End(id) => id in w.flights && w.flights[id].Answered?
  }

  function Tag(tagged: map<(string, string), Response>, url: string, representation: Response)
    : map<(string, string), Response>
  {
    if TagOf(representation).Some? then tagged[(url, TagOf(representation).value) := representation] else tagged
  }

  function Step(w: World, event: Event): World
    requires Enabled(w, event)
  {
    match event
    case Begin(request) =>
      var cached := CachedFor(w.entries, request);
      w.(flights := w.flights[w.begun := Sent(Conditional(request, cached), cached)],
         begun := w.begun + 1)
    case Change(url, representation) =>
      w.(origin := w.origin[url := representation], tagged := Tag(w.tagged, url, representation))
    case Reply(id, notModified) =>
      var Sent(request, cached) := w.flights[id];
      w.(flights := w.flights[id := Answered(request, cached, notModified, w.origin[request.url])],
         served := w.served + multiset{id})
    case ReplyInFull(id) =>
      var Sent(request, cached) := w.flights[id];
      w.(flights := w.flights[id := Answered(request, cached, w.origin[request.url], w.origin[request.url])],
         served := w.served + multiset{id})
    case Respond(id, response) =>
      var Sent(request, cached) := w.flights[id];
      w.(flights := w.flights[id := Answered(request, cached, response, response)],
         served := w.served + multiset{id})
    case Lose(id) => w.(flights := w.flights - {id}, lost := w.lost + {id})
    case End(id) =>
      var Answered(request, cached, response, held) := w.flights[id];
      w.(flights := w.flights - {id},
         done := w.done[id := Done(Answer(cached, response), held)],
         entries := Remember(w.entries, request, cached, response))
  }

  function Run(w: World, events: seq<Event>): World
    requires CanRun(w, events)
    decreases |events|
  {
    if events == [] then w else Run(Step(w, events[0]), events[1..])
  }

  predicate CanRun(w: World, events: seq<Event>)
    decreases |events|
  {
    events == [] || (Enabled(w, events[0]) && CanRun(Step(w, events[0]), events[1..]))
  }

  const START := World(map[], map[], map[], map[], map[], {}, 0, multiset{})

  /** A tagged response is the one representation of its URL with that tag. */
  ghost predicate Known(tagged: map<(string, string), Response>, url: string, response: Response) {
    TagOf(response).Some? ==>
      (url, TagOf(response).value) in tagged && tagged[(url, TagOf(response).value)] == response
  }

  ghost predicate CachedSound(tagged: map<(string, string), Response>, url: string, cached: Cached) {
    cached.Some? ==> Known(tagged, url, cached.value.1) && TagOf(cached.value.1) == Some(cached.value.0)
  }

  ghost predicate FlightSound(tagged: map<(string, string), Response>, flight: Flight) {
    && CachedSound(tagged, flight.request.url, flight.cached)
    && (flight.request.verb != Get ==> flight.cached.None?)
    && Find(flight.request.headers, IF_NONE_MATCH)
       == (if flight.cached.Some? then Some(flight.cached.value.0) else None)
    && (flight.Answered? ==> Answer(flight.cached, flight.response) == flight.held)
    && (flight.Answered? && flight.request.verb == Get ==>
          && Known(tagged, flight.request.url, flight.held)
          && flight.held.status != 304
          && (flight.response.status == 304 ==> flight.cached.Some?))
  }

  /** The tags of `later` are those of `tagged` and more. */
  ghost predicate Grows(tagged: map<(string, string), Response>, later: map<(string, string), Response>) {
    forall k :: k in tagged ==> k in later && later[k] == tagged[k]
  }

  /** The origin's answer to the request has come. */
  predicate Answers(w: World, id: nat) {
    id in w.done || (id in w.flights && w.flights[id].Answered?)
  }

  ghost predicate Sound(w: World) {
    && (forall url :: url in w.entries ==> CachedSound(w.tagged, url, Some(w.entries[url])))
    && (forall url :: url in w.origin ==> Known(w.tagged, url, w.origin[url]) && w.origin[url].status != 304)
    && (forall id :: id in w.flights ==> FlightSound(w.tagged, w.flights[id]))
    && (forall id :: id in w.done ==> w.done[id].answer == w.done[id].held)
  }

  /** Every request begun is in flight, done or lost; the origin answered each once at most, and
      those not lost as often as its answer came. */
  ghost predicate Counted(w: World) {
    && (forall id: nat :: id in w.flights || id in w.done || id in w.lost <==> id < w.begun)
    && w.flights.Keys !! w.done.Keys && (w.flights.Keys + w.done.Keys) !! w.lost
    && forall id :: ServedOnce(w, id)
  }

  ghost predicate ServedOnce(w: World, id: nat) {
    && w.served[id] <= 1
    && (id !in w.lost ==> w.served[id] == if Answers(w, id) then 1 else 0)
  }

  lemma StepCounted(w: World, event: Event)
    requires Counted(w) && Enabled(w, event)
    ensures Counted(Step(w, event))
  {
    var next := Step(w, event);
    forall id
      ensures ServedOnce(next, id)
    {
      assert ServedOnce(w, id);
    }
  }

  lemma BeginSound(w: World, request: Request)
    requires Sound(w) && Enabled(w, Begin(request))
    ensures Sound(Step(w, Begin(request)))
  {
    var cached := CachedFor(w.entries, request);
    if cached.Some? {
      WithHeaderSets(request, IF_NONE_MATCH, cached.value.0, IF_NONE_MATCH);
    }
    assert FlightSound(w.tagged, Sent(Conditional(request, cached), cached));
  }

  lemma ChangeSound(w: World, url: string, representation: Response)
    requires Sound(w) && Enabled(w, Change(url, representation))
    ensures Sound(Step(w, Change(url, representation)))
  {
    var next := Step(w, Change(url, representation));
    assert Grows(w.tagged, next.tagged);
    forall id | id in w.flights
      ensures FlightSound(next.tagged, w.flights[id])
    {
      assert FlightSound(w.tagged, w.flights[id]);
    }
    assert Known(next.tagged, url, representation);
  }

  /** A 304 means the origin still holds what the tag names: the cached response. */
  lemma ReplySound(w: World, id: nat, notModified: Response)
    requires Sound(w) && Enabled(w, Reply(id, notModified))
    ensures Sound(Step(w, Reply(id, notModified)))
  {
    var Sent(request, cached) := w.flights[id];
    assert FlightSound(w.tagged, w.flights[id]);
    var held := w.origin[request.url];
    assert Known(w.tagged, request.url, held);
    assert Answer(cached, notModified) == held;
    assert FlightSound(w.tagged, Answered(request, cached, notModified, held));
  }

  lemma ReplyInFullSound(w: World, id: nat)
    requires Sound(w) && Enabled(w, ReplyInFull(id))
    ensures Sound(Step(w, ReplyInFull(id)))
  {
    var Sent(request, cached) := w.flights[id];
    assert FlightSound(w.tagged, w.flights[id]);
    var held := w.origin[request.url];
    assert FlightSound(w.tagged, Answered(request, cached, held, held));
  }

  lemma RespondSound(w: World, id: nat, response: Response)
    requires Sound(w) && Enabled(w, Respond(id, response))
    ensures Sound(Step(w, Respond(id, response)))
  {
    var Sent(request, cached) := w.flights[id];
    assert FlightSound(w.tagged, w.flights[id]);
    assert FlightSound(w.tagged, Answered(request, cached, response, response));
  }

  lemma EndSound(w: World, id: nat)
    requires Sound(w) && Enabled(w, End(id))
    ensures Sound(Step(w, End(id)))
  {
    var Answered(request, cached, response, held) := w.flights[id];
    assert FlightSound(w.tagged, w.flights[id]);
    var next := Step(w, End(id));
    forall url | url in next.entries
      ensures CachedSound(next.tagged, url, Some(next.entries[url]))
    {
      assert url in w.entries ==> CachedSound(w.tagged, url, Some(w.entries[url]));
    }
  }

  lemma StepSound(w: World, event: Event)
    requires Sound(w) && Enabled(w, event)
    ensures Sound(Step(w, event))
  {
    match event
    case Begin(request) => BeginSound(w, request);
    case Change(url, representation) => ChangeSound(w, url, representation);
    case Reply(id, notModified) => ReplySound(w, id, notModified);
    case ReplyInFull(id) => ReplyInFullSound(w, id);
    case Respond(id, response) => RespondSound(w, id, response);
    case Lose(id) =>
    case End(id) => EndSound(w, id);
  }

  lemma {:induction false} RunSound(w: World, events: seq<Event>)
    requires Sound(w) && Counted(w) && CanRun(w, events)
    ensures Sound(Run(w, events)) && Counted(Run(w, events))
    decreases |events|
  {
    if events != [] {
      StepSound(w, events[0]);
      StepCounted(w, events[0]);
      RunSound(Step(w, events[0]), events[1..]);
    }
  }

  /** What the origin was last changed to hold for the URL; `before` is what it held. */
  function LastChange(events: seq<Event>, url: string, before: Option<Response>): Option<Response> {
    if events == [] then before
    else
      LastChange(events[1..], url,
                 if events[0].Change? && events[0].url == url then Some(events[0].representation) else before)
  }

  lemma {:induction false} OriginHoldsTheLast(w: World, events: seq<Event>, url: string)
    requires CanRun(w, events)
    ensures var held := LastChange(events, url, if url in w.origin then Some(w.origin[url]) else None);
      if held.Some? then url in Run(w, events).origin && Run(w, events).origin[url] == held.value
      else url !in Run(w, events).origin
    decreases |events|
  {
    if events != [] {
      OriginHoldsTheLast(Step(w, events[0]), events[1..], url);
    }
  }

  /** The cache cannot be told from no cache: whatever requests, changes and losses interleave,
      every request that ended was answered with what the origin held when it answered (or, but
      for GETs, with what it answered), and the origin answered it once; it never answers one twice. */
  lemma CacheIsTransparent(events: seq<Event>, id: nat)
    requires CanRun(START, events)
    ensures var w := Run(START, events);
      && w.served[id] <= 1 && (id in w.done ==> w.served[id] == 1)
      && (id < w.begun ==> id in w.flights || id in w.done || id in w.lost)
      && (id in w.done ==> w.done[id].answer == w.done[id].held)
  {
    RunSound(START, events);
    assert ServedOnce(Run(START, events), id);
  }

  /** The premise about tags is needed: for a response cached under its tag, an origin that
      answers conditionally is reproduced exactly when what it holds under that tag is that
      response. */
  lemma TagsMustNotBeReused(request: Request, cached: (string, Response), held: Response, notModified: Response)
    requires notModified.status == 304 && held.status != 304
    requires Find(request.headers, IF_NONE_MATCH) == None && TagOf(cached.1) == Some(cached.0)
    ensures var sent := Conditional(request, Some(cached));
      var response := if NotModified(held, sent) then notModified else held;
      Answer(Some(cached), response) == held <==> (TagOf(held) == Some(cached.0) ==> held == cached.1)
  {
    WithHeaderSets(request, IF_NONE_MATCH, cached.0, IF_NONE_MATCH);
  }

  /** The event ends a GET of `url` with a full response that has a tag. */
  predicate EndsTagged(w: World, event: Event, url: string) {
    && event.End? && event.id in w.flights && w.flights[event.id].Answered?
    && w.flights[event.id].request.verb == Get && w.flights[event.id].request.url == url
    && w.flights[event.id].response.status == 200 && Find(w.flights[event.id].response.headers, ETAG).Some?
  }

  /** The latest full, tagged response that a GET of `url` ended with; `before` the events it was `last`. */
  function LastTagged(w: World, events: seq<Event>, url: string, last: Option<Response>): Option<Response>
    requires CanRun(w, events)
    decreases |events|
  {
    if events == [] then last
    else
      LastTagged(Step(w, events[0]), events[1..], url,
                 if EndsTagged(w, events[0], url) then Some(w.flights[events[0].id].response) else last)
  }

  /** The request goes out as given, but for If-None-Match when there is a tag. */
  ghost predicate SentAs(request: Request, sent: Request, etag: Option<string>) {
    && sent.verb == request.verb && sent.url == request.url && sent.body == request.body
    && forall name ::
         Find(sent.headers, name)
         == if etag.Some? && SameName(IF_NONE_MATCH, name) then etag else Find(request.headers, name)
  }

  /** The cache has what the latest full, tagged response was. */
  predicate Has(w: World, url: string, last: Option<Response>) {
    match last
    case None => url !in w.entries
    case Some(response) =>
      && url in w.entries && w.entries[url].1 == response
      && Some(w.entries[url].0) == Find(response.headers, ETAG)
  }

  lemma {:induction false} HasLatest(w: World, events: seq<Event>, url: string, last: Option<Response>)
    requires CanRun(w, events) && Has(w, url, last)
    ensures Has(Run(w, events), url, LastTagged(w, events, url, last))
    decreases |events|
  {
    if events != [] {
      HasLatest(Step(w, events[0]), events[1..], url,
                if EndsTagged(w, events[0], url) then Some(w.flights[events[0].id].response) else last);
    }
  }

  lemma StepFlight(w: World, event: Event, id: nat)
    requires Counted(w) && Enabled(w, event) && id < w.begun && id in Step(w, event).flights
    ensures id in w.flights && Step(w, event).flights[id].request == w.flights[id].request
    ensures Step(w, event).flights[id].cached == w.flights[id].cached
  {
    match event
    case Begin(_) => assert id != w.begun;
    case _ =>
  }

  /** While a request is in flight, neither it nor what the cache had for it changes. */
  lemma {:induction false} FlightStays(w: World, events: seq<Event>, id: nat)
    requires Counted(w) && CanRun(w, events) && id < w.begun && id in Run(w, events).flights
    ensures id in w.flights && Run(w, events).flights[id].request == w.flights[id].request
    ensures Run(w, events).flights[id].cached == w.flights[id].cached
    decreases |events|
  {
    if events != [] {
      StepCounted(w, events[0]);
      FlightStays(Step(w, events[0]), events[1..], id);
      StepFlight(w, events[0], id);
    }
  }

  /** The cache revalidates, over every interleaving of requests, changes and losses: a GET whose URL some GET
      before it ended with a full, tagged response goes out with the latest such tag, as everything else goes out
      just as given; and however long it takes, it is answered with that response when a 304 comes back, and
      otherwise with what came back. */
  lemma RevalidatesTheLatest(events: seq<Event>, request: Request, more: seq<Event>)
    requires CanRun(START, events) && Enabled(Run(START, events), Begin(request))
    requires CanRun(Step(Run(START, events), Begin(request)), more)
    ensures var w := Run(START, events);
      var begun, id := Step(w, Begin(request)), w.begun;
      var last := LastTagged(START, events, request.url, None);
      var latest := if request.verb == Get then last else None;
      var later := Run(begun, more);
      && id in begun.flights && begun.flights[id].Sent?
      && SentAs(request, begun.flights[id].request,
                if latest.Some? then Find(latest.value.headers, ETAG) else None)
      && (id in later.flights && later.flights[id].Answered? ==>
            var response := later.flights[id].response;
            Step(later, End(id)).done[id].answer
            == if latest.Some? && response.status == 304 then latest.value else response)
  {
    var w := Run(START, events);
    RunSound(START, events);
    HasLatest(START, events, request.url, None);
    var latest := if request.verb == Get then LastTagged(START, events, request.url, None) else None;
    BeginSends(w, request, latest);
    StepCounted(w, Begin(request));
    var begun, id := Step(w, Begin(request)), w.begun;
    if id in Run(begun, more).flights {
      FlightStays(begun, more, id);
      EndAnswers(Run(begun, more), id);
    }
  }

  lemma EndAnswers(w: World, id: nat)
    requires id in w.flights
    ensures w.flights[id].Answered? ==>
      Step(w, End(id)).done[id].answer
      == if w.flights[id].cached.Some? && w.flights[id].response.status == 304 then w.flights[id].cached.value.1
         else w.flights[id].response
  {
  }

  lemma BeginSends(w: World, request: Request, latest: Option<Response>)
    requires Enabled(w, Begin(request))
    requires if request.verb == Get then Has(w, request.url, latest) else latest == None
    ensures var begun, id := Step(w, Begin(request)), w.begun;
      && begun.flights.Keys == w.flights.Keys + {id} && begun.flights[id].Sent?
      && (begun.flights[id].cached.Some? <==> latest.Some?)
      && (latest.Some? ==> begun.flights[id].cached.value.1 == latest.value)
      && SentAs(request, begun.flights[id].request,
                if latest.Some? then Find(latest.value.headers, ETAG) else None)
  {
    if latest.Some? {
      var etag := w.entries[request.url].0;
      var sent := WithHeader(request, IF_NONE_MATCH, etag);
      forall name
        ensures Find(sent.headers, name)
             == if SameName(IF_NONE_MATCH, name) then Some(etag) else Find(request.headers, name)
      {
        WithHeaderSets(request, IF_NONE_MATCH, etag, name);
      }
    }
  }

  // ---------------------------------------------------------------------
  // Retrying
  // ---------------------------------------------------------------------

  /** A transport error, or a server's error. */
  predicate Failed(outcome: Result<Response, string>) {
    outcome.Err? || outcome.value.status >= 500
  }

  /** Sends again after a failure; `replies(i)` is what the `i`th send comes back with. */
  method Retry(attempts: nat, request: Request, replies: nat -> Result<Response, string>)
    returns (outcome: Result<Response, string>, sends: nat)
    ensures 1 <= sends <= attempts + 1
    ensures request.verb !in {Get, Put, Delete, Head} ==> sends == 1
    ensures outcome == replies(sends - 1)
    ensures forall i :: 0 <= i < sends - 1 ==> replies(i).Err? || replies(i).value.status >= 500
    ensures (outcome.Err? || outcome.value.status >= 500) && request.verb in {Get, Put, Delete, Head} ==>
      sends == attempts + 1
  {
    var idempotent := request.verb in {Get, Put, Delete, Head};
    var tries := 0;
    while true
      invariant tries <= attempts
      invariant tries > 0 ==> idempotent
      invariant forall i :: 0 <= i < tries ==> Failed(replies(i))
      decreases attempts - tries
    {
      outcome := replies(tries);
      if !Failed(outcome) || !idempotent || tries >= attempts {
        return outcome, tries + 1;
      }
      tries := tries + 1;
    }
  }
}
