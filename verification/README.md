# RustNative: proofs of the data layer and the portable core

A model, in Dafny, of the parts of RustNative with the most state, branching and arithmetic, and
proofs of what they promise. `dafny verify dfyconfig.toml` checks all of it.

Code that changes objects in place is modelled by classes with the same fields and methods. Each
method is proved equal to a function of the state before it; what the source promises is then
proved about those functions, over every input and every run. Asynchronous code is a system of
steps on one thread, a step being the code between two awaits: spawning only enqueues, and a
cancelled task takes no further step.

| module | models |
|---|---|
| `Patience`, `ListDiff` | the keyed-list diff: longest increasing subsequence, and the fewest moves |
| `Projections` | filtering, sorting and grouping a view of a list |
| `Mutations` | the offline mutation queue, its replay, conflicts, and optimistic updates with rollback |
| `QueryKeys`, `QueryCache`, `QueryClients` | the query cache: one key as a state machine, then all keys in maps |
| `Stores` | the store with updates inside updates, selections, and the memo |
| `Identity`, `WireKeys`, `WireTree` | the interner, two-half ids, their printed keys, and the tree on the wire |
| `Windows` | windows modal to one another, and closing them |
| `Http` | the ETag cache among interleaved GETs (sections 13.1.2 and 15.4.5 of RFC 9110), headers, retrying |
| `TreeNavs`, `MenuNavs` | keyboard navigation of a tree and of a menu |
| `Histories`, `Documents` | the undo timeline, and a document over its files |
| `Batches` | requests answered by one batch |
| `Migrations` | versioned values, the steps between versions, and the store that applies them |

Places where the code does less than its documentation, or than one would expect, are stated as
exact conditions:

- A mutation sent directly that comes back unreachable clears `replaying` even while a replay
  runs. A second replay can then send the queue's front again, and a queued mutation is lost
  (`Mutations.StepInOrder`, `Mutations.BrokenReplayLosesMutation`).
- A mutation that has waited in the offline queue, because it was made offline or came back
  unreachable, is not rolled back when a replay of it is rejected: what its optimistic updates
  replaced is forgotten when it is queued (`Mutations.RollsBack`, `Mutations.QueuedIsNotRolledBack`).
- A component that renders with a polling interval only once it observes the query already is not
  polled (`QueryCache.PolledIffDue`, `QueryCache.LateIntervalIsNotPolled`).
- A bare node key such as `5~x` reads on the wire as key `x` of owner 5 (`WireKeys.WireKeysRoundTrip`).
- The data of a grid or a virtual list whose style was changed, of an opacity within the epsilon of
  one, or of a command name beyond the 4097 a process keeps, does not survive the wire
  (`WireTree.SentTreesComeBack`).
- A selection can miss a change after exactly a multiple of 2^64 updates (`Stores.FreshUnlessWrapped`).
- Opening a window modal to one that is not open leaves it without a parent (`Windows.StepParentsOpen`).
- An origin that reuses a tag is misrepresented by the cache (`Http.TagsMustNotBeReused`).
- Toggling an ancestor of the focused tree item hides the focus (`TreeNavs.ToggleKeepsFocusShown`).
- Saving to `p` while the document's own file is `p.saving` can destroy that file when the save
  fails (`Documents.OwnFileLostIff` says for each way of failing).
- A migration to an unknown version fails at once, while one that goes through a known version on
  the way may fail earlier, for another reason (`Migrations.UnknownIsRefused`).

## Model

| member | source | states |
|---|---|---|
| `Patience.LongestIncreasing` | crates/rustnative-data/src/list.rs:198-219 | The marked values are strictly increasing, and no strictly increasing marking of the same values marks more. |
| `Patience.PartitionPoint` | crates/rustnative-data/src/list.rs:198-219 | The binary search finds the first tail whose value is not below the new one. |
| `Patience.RankBound` | crates/rustnative-data/src/list.rs:198-219 | No increasing marking is longer than the largest rank a position can have. |
| `Patience.WalkBack` | crates/rustnative-data/src/list.rs:198-219 | Following the links from the last tail marks one position of each rank, increasing, and ends, because each link leads to an earlier position. |
| `ListDiff.DiffKeys` | crates/rustnative-data/src/list.rs:163-194 | For any two orders the changes describe what was removed, inserted and moved. For duplicate-free orders, what is left of both is the same list, the moved keys explain the difference, and no smaller set of moved keys does. |
| `ListDiff.DiffIsLeast` | crates/rustnative-data/src/list.rs:163-194 | A longest increasing marking of the kept rows gives the fewest moves. |
| `ListDiff.ExplanationIncreases` | crates/rustnative-data/src/list.rs:163-194 | Any set of moved keys that explains the difference leaves an increasing marking of the kept rows. |
| `ListDiff.IncreaseExplains` | crates/rustnative-data/src/list.rs:163-194 | Any increasing marking of the kept rows explains the difference by moving the rows it leaves unmarked. |
| `Projections.Projection.Filter` | crates/rustnative-data/src/list.rs:52-56 | Keeps the rows accepted, in the view's order. |
| `Projections.RetainedKeepsOrder` | crates/rustnative-data/src/list.rs:52-56 | Whatever relation held between every earlier and later row of the view still does after filtering. |
| `Projections.SortedIsStable` | crates/rustnative-data/src/list.rs:60-64 | Sorting gives the same rows, in order, equal ones in the order they had. |
| `Projections.Projection.SortBy` | crates/rustnative-data/src/list.rs:60-64 | The view holds the same rows in order, equal ones in the order they had: the only stable sort of them. |
| `Projections.StableSortIsUnique` | crates/rustnative-data/src/list.rs:60-64 | There is only one stable sort of given rows by a given comparison, whatever the library does inside. |
| `Projections.Projection.GroupBy` | crates/rustnative-data/src/list.rs:82-95 | The loop puts each row in the last section when its key is that section's. |
| `Projections.CutsAreUnique` | crates/rustnative-data/src/list.rs:82-95 | Those sections are the only ones whose rows are the view's, in order, cut exactly where the key changes. |
| `Projections.SortThenGroup` | crates/rustnative-data/src/list.rs:68-95 | Sorted by a key first, each key has one section, in the order of the keys, and the sections' rows are the sorted view. |
| `ListDiff.WhatIsLeft` | crates/rustnative-data/src/list.rs:163-194 | Deleting removed and moved-from rows from the old order leaves the marked rows, and so does deleting inserted and moved-to rows from the new one. |
| `Mutations.OfflineQueue` | crates/rustnative-data/src/mutation.rs:236-418 | Over every run from a restart, with a store or none: `pending` counts the sends in flight and the status shows the queue; unless a direct send came back unreachable during a replay, one replay at most is in flight, of the queue's front, and what replays settled followed by the queue is everything ever queued, in order; with saves succeeding, what a restart would load is always the queue. |
| `Mutations.StepInOrder` | crates/rustnative-data/src/mutation.rs:306-338 | A step keeps the replay in order exactly when it is not a direct send that comes back unreachable while a replay is in flight. |
| `Mutations.InOrderExactly` | crates/rustnative-data/src/mutation.rs:306-418 | The replay is in order throughout a run exactly when no step of it is one of those. |
| `Mutations.BrokenReplayLosesMutation` | crates/rustnative-data/src/mutation.rs:306-338 | A run in which such a send happens, at whose end a queued mutation is neither queued, nor in flight, nor settled. |
| `Mutations.StepSound` | crates/rustnative-data/src/mutation.rs:306-379 | Every step keeps the counts, and every delivery has asked its handler at most twice, the second time by force. |
| `Mutations.StepNothingLost` | crates/rustnative-data/src/mutation.rs:288-418 | While the replay is in order, a step only moves mutations from the queue's front to the settled ones, or adds to its end. |
| `Mutations.StepStored` | crates/rustnative-data/src/mutation.rs:288-304 | A step whose save succeeds leaves the stored queue equal to the one in memory. |
| `Mutations.OptimisticUndone` | crates/rustnative-data/src/mutation.rs:269-279 | Putting the snapshots back in reverse gives each entry the updates touched its first value, even when one key was changed several times, whatever happened to it meanwhile. |
| `Mutations.RollsBack` | crates/rustnative-data/src/mutation.rs:269-414 | From `mutate` to its refusal, over every run before and between, whatever else writes the cache: the entries a mutation changed optimistically are sure to be put back exactly when it was made online with a background and never came back unreachable (or it changed none). One that waited in the queue is not rolled back. |
| `Mutations.RefusalIsRollback` | crates/rustnative-data/src/mutation.rs:340-387 | Over every run from a restart, a refused mutation that never waited has every entry it changed put back to its value before `mutate` and no other changed; the refusal of one that waited, which is always a replay, changes no entry. |
| `Mutations.StepTraced` | crates/rustnative-data/src/mutation.rs:269-338 | A step puts into the queue exactly a mutation made offline or with no background, or a direct send that comes back unreachable; replays are of queued mutations, and a direct send is the only one of a mutation never queued. |
| `Mutations.QueuedIsNotRolledBack` | crates/rustnative-data/src/mutation.rs:306-418 | A run in which a mutation that changed an entry comes back unreachable, is replayed and is rejected, and the entry keeps the optimistic value; no step of it breaks a replay. |
| `Mutations.EveryEventAsAsked` | crates/rustnative-data/src/mutation.rs:236-418 | Over every run from a restart, whatever happens next does exactly what it asks for, field by field: which send begins and with what, what each send asks next and when it ends, what joins and leaves the queue and when that is saved, the two flags, the counts, the queries made stale, and each entry's value. |
| `Mutations.ConflictByPolicy` | crates/rustnative-data/src/mutation.rs:355-378 | Over every run: a conflict is a rejection under `ServerWins` or once the send was forced; otherwise nothing is rejected and nothing shown changes, and the same send asks once more with `force`, its payload the mutation's own under `ClientWins` and merged with the server's version under `Merge`. |
| `Mutations.ServerWinsNeverForces` | crates/rustnative-data/src/mutation.rs:355-378 | Under `ServerWins`, over every run, no send is asked more than once, and only as its mutation was made. |
| `Mutations.OnlineReplays` | crates/rustnative-data/src/mutation.rs:306-418 | Over every run, broken or not: online and with a background, a queue that is not empty is being replayed. |
| `Mutations.OptimisticByKey` | crates/rustnative-data/src/mutation.rs:269-279 | What optimistic updates leave under a key is that key's value changed by the updates at that key alone, one after another. |
| `Mutations.QueryClient.constructor` | crates/rustnative-data/src/mutation.rs:236-252 | A client starts with the queue its store holds, with an empty one when the store holds none that reads, and with an empty one and no store when it was given none. |
| `Mutations.QueryClient.Mutate` | crates/rustnative-data/src/mutation.rs:269-286 | Applies the optimistic updates, then sends with what they replaced, or queues while offline without it. |
| `Mutations.QueryClient.ShowChanges` | crates/rustnative-data/src/mutation.rs:270-279 | Applies the optimistic updates in order, keeping a snapshot for each that changes something. |
| `Mutations.QueryClient.PersistQueue` | crates/rustnative-data/src/mutation.rs:288-299 | Saves the queue when there is a store that takes it and shows its length. |
| `Mutations.QueryClient.EnqueueLast` | crates/rustnative-data/src/mutation.rs:301-304 | The mutation joins the queue's end and the queue is saved. |
| `Mutations.QueryClient.SendMutation` | crates/rustnative-data/src/mutation.rs:306-315 | Spawns one send; with no background, a direct send is queued and replaying ends. |
| `Mutations.QueryClient.FinishSend` | crates/rustnative-data/src/mutation.rs:316-337 | A settled replay leaves the queue's front and the next one is sent; an unreachable send is queued if it was direct, ends replaying and goes offline. |
| `Mutations.QueryClient.PollSend` | crates/rustnative-data/src/mutation.rs:340-355 | A mutation without a handler is rejected and settled; otherwise its handler is asked. |
| `Mutations.QueryClient.AnswerSend` | crates/rustnative-data/src/mutation.rs:355-378 | One turn of the delivery loop: success, unreachable, rejection, and a conflict under each policy. |
| `Mutations.QueryClient.RejectMutation` | crates/rustnative-data/src/mutation.rs:381-387 | Puts the snapshots back last first, counts the rejection and invalidates. |
| `Mutations.QueryClient.ReplayQueue` | crates/rustnative-data/src/mutation.rs:396-405 | Starts a replay unless one is running. |
| `Mutations.QueryClient.ReplayFront` | crates/rustnative-data/src/mutation.rs:407-418 | Sends the queue's front as a replay, or ends replaying when the queue is empty. |
| `Mutations.QueryClient.SetReachable` | crates/rustnative-data/src/mutation.rs:396-405 | Coming back online starts a replay; anything else only notes the state. |
| `Mutations.QueryClient.AttachBackground` | crates/rustnative-data/src/query.rs:575-588 | The first background attached starts a replay when something is queued and the client is online. |
| `QueryCache.OneFetch` | crates/rustnative-data/src/query.rs:889-969 | Over every interleaving of renders, drops, settlings, timers and fetches, a key has a live fetch exactly when its entry's task is set, to that fetch; then exactly one of `fetching` and `loading_more` is set, otherwise neither; and no fetch is retried beyond its limit. |
| `QueryCache.ObserversCounted` | crates/rustnative-data/src/query.rs:515-537 | Over every interleaving, a component's count is the number of handles it holds, the known components are the counted ones, and a known one at zero has a settling pending. |
| `QueryCache.ObservedNotCollected` | crates/rustnative-data/src/query.rs:833-862 | No step removes an entry that a live handle observes. |
| `QueryCache.ShownLoadingIsFetched` | crates/rustnative-data/src/query.rs:976-990 | A component shown Loading or Refreshing has exactly one fetch running for its key. |
| `QueryCache.BeginsAtMostOne` | crates/rustnative-data/src/query.rs:889-938 | A step begins at most one fetch of a key, and none while one is in flight. |
| `QueryCache.EveryEventAsAsked` | crates/rustnative-data/src/query.rs:515-969 | Over every interleaving, whatever happens next does exactly what it asks for. A fetch begins if and only if none is live and it is asked for: by a component that starts observing when there is no value, or an old one and the query fetches on mounting; by a poll; by the next page when there is one; by an invalidation when observed; by focus or network when observed, old or absent, and the policy says so; by a prefetch of what is old or absent. A reply ends its fetch, but for a retryable failure with attempts left. Who observes, the poll, the timer, and the entry's policies, value, failure, date and mark are exactly what the event makes them. |
| `QueryCache.PolledIffDue` | crates/rustnative-data/src/query.rs:771-800 | Over every interleaving, exactly one poll is live when a component started observing with an interval since the key was last unobserved, and otherwise none. |
| `QueryCache.PolledWhileObserved` | crates/rustnative-data/src/query.rs:771-800 | When every render names an interval, one poll is live exactly while somebody observes. |
| `QueryCache.LateIntervalIsNotPolled` | crates/rustnative-data/src/query.rs:624-669 | A component that observes already and renders again with an interval is not polled. |
| `QueryCache.TriesCounted` | crates/rustnative-data/src/query.rs:925-938 | Over every interleaving, a live fetch has had one reply for each time it was tried again, and no more than its query allows retries. |
| `QueryCache.ShownExactly` | crates/rustnative-data/src/query.rs:976-990 | Over every interleaving, Loading, Refreshing, Empty, Success and Failure are shown each exactly when the cached value, the last failure and a live fetch of the first page say so. |
| `QueryCache.LoadedStaysShown` | crates/rustnative-data/src/query.rs:940-990 | What a fetch loaded is shown through any run until another value replaces it, never as a failure or as nothing yet, and until then it is stale exactly when it was invalidated since or its stale time has passed; an equal value keeps the cached one. |
| `QueryCache.FailureIsShown` | crates/rustnative-data/src/query.rs:940-990 | A fetch that fails with nothing loaded before shows its failure through any run until another is tried or a value comes from elsewhere. |
| `QueryCache.InvalidatedIsStale` | crates/rustnative-data/src/query.rs:697-712 | An invalidated entry is stale, and is being fetched if it is observed. |
| `QueryCache.StepKeeps` | crates/rustnative-data/src/query.rs:624-969 | Every step keeps tasks, flags, counts and timers of a key consistent. |
| `QueryCache.NeverZero` | crates/rustnative-data/src/query.rs:870-878 | The xorshift generator, seeded away from zero, never reaches it. |
| `QueryClients.QueryClient.UseQuery` | crates/rustnative-data/src/query.rs:624-669 | A render does to its key one step of the cache, and nothing to any other key. |
| `QueryClients.QueryClient.DropObserver` | crates/rustnative-data/src/query.rs:515-537 | Dropping a handle counts it out and, at zero, spawns the settling, for its key alone. |
| `QueryClients.QueryClient.SettleObserver` | crates/rustnative-data/src/query.rs:802-831 | A component still at zero is forgotten; with the last one the fetch and the poll are cancelled and retention begins. |
| `QueryClients.QueryClient.ScheduleRetention` | crates/rustnative-data/src/query.rs:833-862 | One retention timer replaces the last. |
| `QueryClients.QueryClient.Collect` | crates/rustnative-data/src/query.rs:843-857 | A timer that fires removes the entry only when nothing observes or fetches it. |
| `QueryClients.QueryClient.StartFetch` | crates/rustnative-data/src/query.rs:889-938 | Starts a fetch of one key unless it has one, or there is no next page to load. |
| `QueryClients.QueryClient.FetchReplied` | crates/rustnative-data/src/query.rs:905-969 | A retryable failure with attempts left is tried again by the same task; anything else settles the fetch. |
| `QueryClients.QueryClient.InvalidatePrefix` | crates/rustnative-data/src/query.rs:697-712 | Every key under the prefix takes one invalidation step, in whatever order, and no other key changes. |
| `QueryClients.QueryClient.RevalidateWhere` | crates/rustnative-data/src/query.rs:744-758 | Every observed stale key whose policy says so is fetched once, in whatever order. |
| `QueryClients.QueryClient.Prefetch` | crates/rustnative-data/src/query.rs:673-693 | An absent entry is made, a stale one fetched, and retention begins. |
| `QueryClients.QueryClient.Mounted` | crates/rustnative-data/src/query.rs:771-800 | A newly observing component fetches what it needs and starts the one poll. |
| `Stores.AppliesInRequestOrder` | crates/rustnative-core/src/state.rs:244-262 | The updates applied are those pending followed by everything the applied ones ask for, in exactly the order it was asked for: each once, none lost, none interleaved, whatever their closures do with the value they find. |
| `Stores.AppliesByLevel` | crates/rustnative-core/src/state.rs:244-262 | That order is breadth-first: each level of nesting in full, before what it asks for. |
| `Stores.TerminatesIffNestsFinitely` | crates/rustnative-core/src/state.rs:250-258 | The loop ends exactly when the updates nest finitely. |
| `Stores.Store.Apply` | crates/rustnative-core/src/state.rs:244-262 | An update made inside another is queued and changes nothing yet; any other runs with all it leads to, in the order above, leaves the whole effect of that, and makes the version one more modulo 2^64: so the version is the number of updates made, modulo 2^64. |
| `Stores.Selection.constructor` | crates/rustnative-core/src/state.rs:271-279 | Remembers the slice of the store's value and the number of its updates then. |
| `Stores.Selection.IsStale` | crates/rustnative-core/src/state.rs:271-283 | Stale exactly when the updates since are not a multiple of 2^64 and the slice differs from the one seen; so, fewer than 2^64 updates later, exactly when the slice differs. |
| `Stores.Store.Drain` | crates/rustnative-core/src/state.rs:252-258 | Runs everything pending and everything queued meanwhile, each after the one before has ended. |
| `Stores.FreshBeforeWrap` | crates/rustnative-core/src/state.rs:271-283 | Fewer than 2^64 updates, whatever they are, that change a slice leave a store at another version. |
| `Stores.FreshUnlessWrapped` | crates/rustnative-core/src/state.rs:271-283 | That holds after `n` updates, whatever they are, exactly when `n` is zero or not a multiple of 2^64. |
| `Stores.Derived.Get` | crates/rustnative-core/src/state.rs:323-333 | The memo always answers what computing gives, and an input equal to the last computes nothing. |
| `Identity.InternerIsBijective` | crates/rustnative-core/src/identity.rs:95-115 | The id a key got names it ever after; keys interned at any two moments share an id exactly when they are equal. |
| `Identity.KeyInterner.Intern` | crates/rustnative-core/src/identity.rs:95-110 | Gives a key its id, a new one only when it has none. |
| `Identity.ScopedIsInjective` | crates/rustnative-core/src/identity.rs:142-172 | Ids are equal exactly when owner and local key are; owner and local key read back. |
| `WireKeys.WireKeysRoundTrip` | crates/rustnative-core/src/wire.rs:161-179 | An interned id comes back from its wire key, interning nothing, exactly when it has an owner or its bare key does not read as an owned one. |
| `WireKeys.ParseDecimal` | crates/rustnative-core/src/wire.rs:161-179 | An owner printed in decimal parses back. |
| `WireKeys.ParsesIff` | crates/rustnative-core/src/wire.rs:173-179 | What reads as an owner is that number in decimal, after any zeros and a plus sign or none, when it fits 64 bits, and nothing else. |
| `WireTree.RoundTrips` | crates/rustnative-core/src/wire.rs:184-319 | Building a node from data and taking the data again gives the same data exactly when, at every depth, grids and virtual lists carry their constructor's style, tabs select one of theirs and the opacity survives, and every command name is read as itself. |
| `WireTree.AllReadIffRoom` | crates/rustnative-core/src/wire.rs:184-202 | Names read in turn all come out as themselves exactly when they are kept already or all fit, unless one of them is the name for too many. |
| `WireTree.SentIsFaithful` | crates/rustnative-core/src/wire.rs:207-251 | The data taken from a node that the constructors built survives exactly when its grids and virtual lists keep their style and no opacity is near one without being one. |
| `WireTree.SentTreesComeBack` | crates/rustnative-core/src/wire.rs:184-319 | A tree sent, rebuilt by another process and sent back is the same data exactly when it is plain and its command names are read: that is, none of them being the name for too many, when they are kept already or there is room for those that are not. |
| `WireTree.InfoSurvives` | crates/rustnative-core/src/wire.rs:184-319 | Role, name, description and focusability come back; the rest of the metadata exactly when it is a control's own, nothing else of which was changed, or there is none. |
| `WireTree.OneTripSettles` | crates/rustnative-core/src/wire.rs:256-319 | Whatever is read off the wire becomes a tree that is well built and plain, which survives being sent again. |
| `WireTree.ClampedToNearest` | crates/rustnative-core/src/wire.rs:256-319 | A selected tab beyond the last becomes the nearest there is, and an opacity out of range the nearest in range. |
| `Windows.Application.OpenWindow` | crates/rustnative-core/src/application.rs:537-567 | Opens a window under the next identity, never one used before. |
| `Windows.Application.CloseWindow` | crates/rustnative-core/src/application.rs:572-598 | Removes exactly the window and everything modal to it through any number of windows; never the primary one. |
| `Windows.Application.Closing` | crates/rustnative-core/src/application.rs:578-590 | The stack visits the window and all modal to it, each once, and ends even when windows are modal in a circle. |
| `Windows.StepParentsOpen` | crates/rustnative-core/src/application.rs:537-598 | A step leaves every open window's modal parent open exactly when it does not open a window modal to one that is not open. |
| `Windows.TopologyHolds` | crates/rustnative-core/src/application.rs:537-598 | Over all runs: the primary window stays open; parents stay open throughout exactly when no window is opened under one that is not; a closed window's identity is never open again. |
| `Http.CacheIsTransparent` | crates/rustnative-data/src/http.rs:262-294 | For any interleaving of requests, losses and changes at the origin, every GET is answered with what the origin held when it answered, other requests with their own answer; the origin answers a request that is done once, and none twice; while tags are not reused and callers set no If-None-Match. |
| `Http.TagsMustNotBeReused` | crates/rustnative-data/src/http.rs:262-294 | A conditional answer reproduces the origin exactly when what it holds under the cached tag is the cached response. |
| `Http.RevalidatesTheLatest` | crates/rustnative-data/src/http.rs:262-294 | Over every interleaving: a GET goes out with If-None-Match set to the tag of the latest full, tagged response a GET of its URL ended with, if any, and otherwise just as given; however long it takes, a 304 is answered with that response, and anything else with what came back. |
| `Http.WithHeaderSets` | crates/rustnative-data/src/http.rs:127-135 | The copy has the header once with the new value, in any letter case, and every other header as it was. |
| `Http.SameNameIgnoresCase` | crates/rustnative-data/src/http.rs:127-135 | Header names are the same exactly when they differ in the case of the letters A to Z only. |
| `Http.SetHeader` | crates/rustnative-data/src/http.rs:127-135 | The loop over the headers builds that copy. |
| `Http.ResponseCache.Send` | crates/rustnative-data/src/http.rs:262-276 | A GET of a cached URL goes out with the cached tag; other requests go out as they are. |
| `Http.ResponseCache.Receive` | crates/rustnative-data/src/http.rs:276-293 | A 304 is answered from the cache; a tagged 200 to a GET is remembered for its URL; anything else passes through. |
| `Http.Retry` | crates/rustnative-data/src/http.rs:185-207 | At most `attempts + 1` sends, exactly one when not idempotent; the answer is the last reply, all before it failed, and a failure is given up only when the attempts are used up. |
| `TreeNavs.VisibleIsDepthFirst` | crates/rustnative-components/src/behaviour.rs:312-330 | The listing holds exactly the items whose ancestors are all expanded, each once, at the depth of as many ancestors, in depth-first order. |
| `TreeNavs.FocusAlwaysShown` | crates/rustnative-components/src/behaviour.rs:333-378 | After any keys pressed on a new tree the focused item is one of those shown. |
| `TreeNavs.KeyKeepsFocusShown` | crates/rustnative-components/src/behaviour.rs:333-378 | No key press leaves the focus on a hidden item. |
| `TreeNavs.ToggleKeepsFocusShown` | crates/rustnative-components/src/behaviour.rs:300-304 | Toggling an item keeps the focus shown exactly when it is not an ancestor of the focused item. |
| `TreeNavs.ToggleTwiceIsNothing` | crates/rustnative-components/src/behaviour.rs:300-304 | Toggling flips whether one item is expanded, and toggling again restores the tree. |
| `TreeNavs.DownGoesThroughTheListing` | crates/rustnative-components/src/behaviour.rs:333-347 | Home and then `k` presses of Down focus the `k`-th shown item, or the last. |
| `TreeNavs.UpGoesBackThroughTheListing` | crates/rustnative-components/src/behaviour.rs:333-347 | End focuses the last shown item and `k` presses of Up the `k`-th before it, or the first. |
| `TreeNavs.UpUndoesDown` | crates/rustnative-components/src/behaviour.rs:333-347 | Up takes Down back wherever a later item is shown; from the last shown item Down stays. |
| `TreeNavs.DownUndoesUp` | crates/rustnative-components/src/behaviour.rs:333-347 | Down takes Up back wherever an earlier item is shown; from the first shown item Up stays. |
| `TreeNavs.EndsAreShown` | crates/rustnative-components/src/behaviour.rs:333-347 | From any shown item Home goes to the first and End to the last, and no vertical key is ignored. |
| `TreeNavs.SidewaysKeys` | crates/rustnative-components/src/behaviour.rs:348-378 | Right opens a closed item with children and goes to the first child of an open one; Left closes an open item or goes to the parent; Enter activates; anything else is ignored. |
| `TreeNavs.InAndOut` | crates/rustnative-components/src/behaviour.rs:348-374 | Right twice enters a collapsed item and its first child; Left twice comes out again and leaves everything as it was. |
| `TreeNavs.TreeNav.WalkInto` | crates/rustnative-components/src/behaviour.rs:318-330 | The recursive walk appends the listing under a parent to what it was given. |
| `TreeNavs.TreeNav.Key` | crates/rustnative-components/src/behaviour.rs:333-378 | One key press does to the tree what the key's step says. |
| `TreeNavs.TreeNav.Toggle` | crates/rustnative-components/src/behaviour.rs:300-304 | Expands a collapsed item, collapses an expanded one. |
| `MenuNavs.FocusAlwaysEnabled` | crates/rustnative-components/src/behaviour.rs:229-256 | After any keys the focused item is enabled. |
| `MenuNavs.ArrowsUndoEachOther` | crates/rustnative-components/src/behaviour.rs:216-226 | Once something is focused, Up undoes Down and Down undoes Up. |
| `MenuNavs.DownGoesToNext` | crates/rustnative-components/src/behaviour.rs:216-226 | From each enabled item Down goes to the next enabled one in order, and from the last to the first. |
| `MenuNavs.AWholeTurn` | crates/rustnative-components/src/behaviour.rs:216-226 | With `k` items enabled, each enabled item is focused by exactly one of `k` presses of Down, and the last returns to the start. |
| `MenuNavs.EndsAreReached` | crates/rustnative-components/src/behaviour.rs:229-233 | Home and End focus the first and last enabled items, and so do the arrows when nothing is focused. |
| `MenuNavs.JumpIsDownAmongMatches` | crates/rustnative-components/src/behaviour.rs:239-246 | Jumping to a letter is Down among the enabled items that start with it. |
| `MenuNavs.JumpGoesToNearest` | crates/rustnative-components/src/behaviour.rs:239-246 | A letter focuses the nearest item on from the focus, wrapping round, that is enabled and starts with it, and is ignored when there is none. |
| `MenuNavs.ActionKeys` | crates/rustnative-components/src/behaviour.rs:234-238 | Enter and Space activate what is focused and are ignored when nothing is, Escape closes, and none of them moves the focus. |
| `MenuNavs.MenuNav.Key` | crates/rustnative-components/src/behaviour.rs:229-256 | One key press does to the menu what the key's step says. |
| `Histories.NeverBeyondTheLimit` | crates/rustnative-data/src/history.rs:51-107 | What can be undone and redone together never exceeds the limit fixed at construction, over every run. |
| `Histories.UndoAndRedoAreInverse` | crates/rustnative-data/src/history.rs:94-107 | Undo and redo move along one line of values and take each other back. |
| `Histories.RecordsThenUndos` | crates/rustnative-data/src/history.rs:63-99 | As many undos as records lead back to the value before them, or, beyond the limit, to the oldest value kept. |
| `Histories.GroupIsOneStep` | crates/rustnative-data/src/history.rs:70-82 | A run of changes in one group, each within the window of the last, is one step: one undo gives back the value before it. |
| `Histories.JoinsOnlyTheLastChange` | crates/rustnative-data/src/history.rs:70-107 | After any acts on a new history, a change in a group joins the last step exactly when the last act that did anything was a change in that group within the window; an undo, a redo or a plain record ends it. |
| `Histories.History.Push` | crates/rustnative-data/src/history.rs:84-91 | The value is placed after the current one on the line, what was undone is forgotten, and at the limit the oldest goes. |
| `Histories.History.RecordCoalesced` | crates/rustnative-data/src/history.rs:70-82 | A change that joins its group replaces the current value; any other is a new step. |
| `Histories.History.Undo` | crates/rustnative-data/src/history.rs:94-99 | Moves one back on the same line, answering whether it could. |
| `Histories.History.Redo` | crates/rustnative-data/src/history.rs:102-107 | Moves one on along the same line, answering whether it could. |
| `Documents.SavesAreAtomic` | crates/rustnative-data/src/document.rs:229-243 | However a save ends, the target holds its old bytes or all of the new, and no file but the staging one beside it is touched; a failed save leaves the document as it was, a successful one leaves it clean. |
| `Documents.CleanIsOnDisk` | crates/rustnative-data/src/document.rs:138-278 | Over every run of a document made or opened, its file holds what was last saved throughout exactly when no save staged over its own file does harm, and then, whenever it is not dirty, its file holds its content; an opened document starts clean. |
| `Documents.OwnFileLostIff` | crates/rustnative-data/src/document.rs:182-278 | Whatever it does and whatever the file system makes of it, a document's file goes on holding what was last saved exactly unless a save's staging file is the document's own and the save fails with other content left there, or with it removed. |
| `Documents.UndoingEveryEditIsClean` | crates/rustnative-data/src/document.rs:182-195 | Over every run of a document made or opened, once it is clean, `k` edits and `k` undos leave it clean exactly when `k` is at most 100 or the oldest content kept is the saved one. |
| `Documents.RevertDiscardsAndUndoRestores` | crates/rustnative-data/src/document.rs:253-260 | Reverting leaves the saved content, clean, and one undo brings back what was discarded. |
| `Documents.WhatIsNeeded` | crates/rustnative-data/src/document.rs:154-260 | Opening needs a file that reads; saving and reverting need a path, and reverting a file that reads; otherwise nothing changes and the error says which. Saving is saving under the document's own path. |
| `Documents.AutosaveReachesDisk` | crates/rustnative-data/src/document.rs:269-278 | Over every such run, an autosave is due exactly when the delay has passed since the run's last edit, the document has the path it last saved to or was opened from, and it is dirty; it answers true exactly when due and written, and then the document is clean and its file holds it; when it is not due nothing changes. |
| `Documents.DocumentController.SaveTo` | crates/rustnative-data/src/document.rs:229-243 | Write, rename and clean-up give the save's effect on document and files. |
| `Documents.DocumentController.RevertFile` | crates/rustnative-data/src/document.rs:253-260 | Reads the file anew and records it as a step, or fails and changes nothing. |
| `Documents.DocumentController.AutosaveFile` | crates/rustnative-data/src/document.rs:269-278 | Saves only when delay, path, dirtiness and idle time all say so. |
| `Batches.AlwaysInOnePlace` | crates/rustnative-data/src/batch.rs:118-151 | Over every run, each value asked for is in exactly one place: pending, in one batch in flight, answered, or delivered. |
| `Batches.EachGetsItsOwnOnce` | crates/rustnative-data/src/batch.rs:78-151 | Over every run, each caller is delivered to at most once, with what its own batch's reply holds for its own key, or the error. |
| `Batches.StagesAdvance` | crates/rustnative-data/src/batch.rs:78-151 | A request only waits, joins one batch, is answered by that batch, and has that answer taken. |
| `Batches.AlwaysScheduled` | crates/rustnative-data/src/batch.rs:121-130 | `scheduled` holds exactly when something is pending, and then one task waits to start; every batch asks for the distinct keys of its own requests. |
| `Batches.QuietMeansAnswered` | crates/rustnative-data/src/batch.rs:118-151 | When no task waits and no batch is in flight, everything asked for has been answered. |
| `Batches.OneRequestForAll` | crates/rustnative-data/src/batch.rs:118-130 | However many values are asked for before the task starts, one request goes out, for the distinct keys among them. |
| `Batches.BatchLoader.Load` | crates/rustnative-data/src/batch.rs:118-122 | Queues the key with a new cell and schedules one task if none is. |
| `Batches.BatchLoader.StartBatch` | crates/rustnative-data/src/batch.rs:123-130 | Takes everything pending as one batch and answers its distinct keys. |
| `Batches.BatchLoader.AnswerBatch` | crates/rustnative-data/src/batch.rs:131-147 | Puts each caller's own answer in its own cell and touches no other. |
| `Batches.BatchLoader.PollFor` | crates/rustnative-data/src/batch.rs:78-85 | Takes the answer out of the cell, if there is one. |
| `Batches.DistinctKeys` | crates/rustnative-data/src/batch.rs:126-128 | The seen-set loop keeps each key where it first is. |
| `Migrations.Migrate` | crates/rustnative-data/src/migrate.rs:112-133 | The two filtered loops move a value one version at a time, up or down; unknown versions are refused, the first named first. |
| `Migrations.MigrationsCompose` | crates/rustnative-data/src/migrate.rs:112-133 | Migrating to a known version through a version on the way gives the same value or error. |
| `Migrations.UnknownIsRefused` | crates/rustnative-data/src/migrate.rs:112-133 | An unknown target is refused at once; by way of a known version the outcome differs exactly when a step on that way fails first. |
| `Migrations.FailureIsFirst` | crates/rustnative-data/src/migrate.rs:117-131 | A failed migration names the version of the first step that failed, everything before it having succeeded. |
| `Migrations.MovesStepByStep` | crates/rustnative-data/src/migrate.rs:112-133 | A value moves one step at a time, each the higher version's; one of an unknown version is refused first, then an unknown target. |
| `Migrations.RoundTripsIffStepsInvert` | crates/rustnative-data/src/migrate.rs:112-133 | Every value survives going up and down again exactly when each step's `down` inverts its `up`. |
| `Migrations.AddedInOrder` | crates/rustnative-data/src/migrate.rs:95-105 | A step is accepted exactly when it keeps the steps in order, and then its version is the latest. |
| `Migrations.SavedThenLoaded` | crates/rustnative-data/src/migrate.rs:203-225 | What one list of steps saved and an extension of it loads is the value migrated between their latest versions. |
| `Migrations.NewerIsNotRead` | crates/rustnative-data/src/migrate.rs:203-211 | What a newer version of the application saved is not read. |
| `Migrations.UpdatingTwiceIsOnce` | crates/rustnative-data/src/migrate.rs:172-225 | Whatever is stored, of any version or none: updating twice, saving what was loaded in between, loads the same in the end as updating once. |
| `Migrations.UnversionedReachesLatest` | crates/rustnative-data/src/migrate.rs:172-225 | A value written before versioning, updated in two stages, is that value migrated from version 1 to the last. |
| `Migrations.PlansPredictLoading` | crates/rustnative-data/src/migrate.rs:138-148 | A dry run to the latest version says what loading will give. |
| `Migrations.PlansFollowKeys` | crates/rustnative-data/src/migrate.rs:138-148 | Each stored key has exactly one plan, from its stored version with the outcome of moving its value, in the order of the keys; a key not stored has none. |
| `Migrations.VersionedStore.Load` | crates/rustnative-data/src/migrate.rs:203-217 | Missing is nothing, newer is nothing, anything else is migrated or the migration's error. |
| `Migrations.VersionedStore.Save` | crates/rustnative-data/src/migrate.rs:219-225 | Stores the value in an envelope of the latest version. |

## Left out

- Executors, wakers, threads and real time: a step's choice of clock, of what a handler answers, of
  whether a save succeeds, and of what a file system does are parameters of the step.
- Bytes of JSON, sockets and the HTTP transport: values and messages are carried as they are, and a
  transport error loses its request.
- Moments inside one step at which a `RefCell` is borrowed: the deferred drop of an observer while the
  entries are borrowed, and reentrant calls from closures into the client, are not modelled.
- Mutations.QueryClient.SetReachable: does not revalidate the observed queries, which
  `QueryClients.QueryClient.RevalidateWhere` does; the two halves of the client are modelled apart,
  and `Mutations` sees the queries' writes as events.
- Query data of different types under one key (shown as a failure), the keys' own fetch closures,
  page assembly, and the lengths of back-off delays; retries are counted, not timed.
- Selections' and stores' names, epochs and inspection lists.
- What a store closure reads besides the value it is given: its effect is a function of that value.
- The panic of an exhausted interner: trees on the wire are taken to carry fewer than 2^64 keys in all.
- Store closures that keep asking for updates for ever: applying an update demands that it ends.
- `apply_queued_window_commands`, window contents, schedulers and persisted window state.
- Leaf fields of nodes on the wire beyond identity, kind, content, modifiers, metadata and children
  are carried as opaque values; opacity is a real number, not a 32-bit float, and rounding is not modelled.
- `BearerAuth`, `Logging`, `Next` as a chain of interceptors, and `Endpoint` paths.
- The algorithm of the library's sort: any stable sort is the one modelled.
- `ListSelection`, tab, grid, combo-box and date navigation: clamped indices and calendar tables.
- The comparison of letters without case in menus is a parameter.
- Another program's writes to a document's file, `external_change`, modification times, titles, file
  dialogs and the list of recent documents.
- A changed limit in the middle of a history's life; `limit` is part of construction.
- Dropping a `Loading` before its answer comes: its cell is filled all the same and never taken.
- The command registry, package version matching, image decoding, base64, charts and widgets.
