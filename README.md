# Agent trace pipeline — a verified Dafny model

This project models the core of a real-time agent-trace system: a Python
backend that simulates agent runs and a TypeScript dashboard that shows them
live.

The backend has three parts:

- **Simulator.** It walks a scenario tree in pre-order. Each node becomes a
  step that is created `running`, broadcast, then completed or failed,
  stored and broadcast again. The run ends `completed`, or `failed` if
  anything raised.
- **Store.** An in-memory store with insertion-ordered tables for runs and
  steps.
- **Rooms.** Per-run WebSocket rooms. A broadcast drops every socket whose
  send raised.

The client has these parts:

- **Live connection.** A class with a heartbeat and reconnect timers.
- **Router.** It sends each message either to the step-list upsert or to a
  wholesale run replacement in the query cache.
- **Graph builder.** It turns steps into nodes and edges.
- **Cost table.** The token-pricing rates.
- **Dashboard aggregations.** Filters, counts and totals in the explorer,
  header, stats bar, trace table, automation card and metrics panel.

Each source file is one Dafny module:

| Source | Module | Dafny file |
|---|---|---|
| `types/index.ts`, `models.py` | `Types` | `types.dfy` |
| Insertion-ordered dictionaries, the shared insert-or-replace | `Keyed` | `keyed.dfy` |
| `filter`, `filter(...).length` and `reduce` idioms | `Seqs` | `seqs.dfy` |
| Python string order and stable `sorted` | `Ordering` | `ordering.dfy` |
| `use-steps.ts` | `StepCache` | `step_cache.dfy` |
| `websocket.ts` (a `class`) | `LiveConnection` | `live_connection.dfy` |
| `use-websocket.ts` | `EventRouter`, `Subscription` | `event_router.dfy`, `subscription.dfy` |
| `graph-utils.ts` | `GraphLayout` | `graph_layout.dfy` |
| Lookup in a JavaScript object literal | `JsObject` | `js_object.dfy` |
| `cost.ts` | `Cost` | `cost.dfy` |
| `database.py` (a `class`) | `Database` | `database.dfy` |
| `websocket_manager.py` (a `class`) | `Rooms` | `rooms.dfy` |
| `simulator.py` | `Simulator` | `simulator.dfy` |
| `simulator.py` (properties of the walk) | `WalkProperties` | `walk_properties.dfy` |
| Values shared by the dashboard components | `Totals` | `step_totals.dfy` |
| `run-explorer.tsx` | `Explorer` | `explorer.dfy` |
| `header-stats.tsx` | `HeaderStats` | `header_stats.dfy` |
| `automation-card.tsx` | `AutomationCard` | `automation_card.dfy` |
| `stats-bar.tsx` | `StatsBar` | `stats_bar.dfy` |
| `trace-table.tsx` | `TraceTable` | `trace_table.dfy` |
| `metrics-panel.tsx` | `MetricsPanel` | `metrics_panel.dfy` |

**How the model is built**

- **Classes.** Code that updates fields in place is a `class` with
  `modifies` clauses: the connection client, the store, the rooms, the query
  client, the subscription hook and the simulation.
- **Accumulating loops.** Loops that build a result step by step are
  methods with loop invariants. Each is proved equal to a specifying
  function, and the lemmas state properties of that function.
- **Everything else** is functions and lemmas.

**Dangling parents.** `graph-utils.ts:52-57` adds an edge for every step
with a parent id and never checks that the parent is among the steps, so a
step whose parent is missing still gets an edge with no node at its source
(`GraphLayout.DanglingParentKeepsEdge`).

**Table lookups.** The client reads its rate, style and colour tables as
JavaScript object literals with a caller-supplied key. A key such as
`toString` or `constructor` finds a member every object inherits from
`Object.prototype`. That member is neither nullish nor falsy, so the
fallback is not taken. The `JsObject` module models this lookup.

## Model

Source cells are relative to the repository root.

| member | source | states |
|---|---|---|
| Types.ParseStepType | apps/api/models.py:27-32 | The step-type enum conversion accepts exactly the five wire names; a parsed tag's wire name is the tag itself |
| Types.StepTypeNameRoundTrip | apps/web/src/types/index.ts:6 | Writing a step type out and parsing it back gives the same step type |
| Keyed.FirstIndex | apps/web/src/hooks/use-steps.ts:30 | `findIndex`: the index found holds the key and no earlier index does; no index means no element has the key |
| Keyed.Lookup | apps/api/database.py:21-22 | A dictionary read finds a value exactly when some entry has the key, and the value found carries that key |
| Keyed.UpsertByIndex | apps/web/src/hooks/use-steps.ts:30-36 | The element-by-element upsert equals the `findIndex` form: a write at the first index holding the key, or an append when no index does |
| Keyed.UpsertReplaces | apps/web/src/hooks/use-steps.ts:30-34 | `Upsert` with a present key keeps the length, puts the new element at the first matching index and leaves every other index as it was |
| Keyed.UpsertAppends | apps/web/src/hooks/use-steps.ts:36 | `Upsert` with the key absent appends the new element and keeps the old list as an unchanged prefix |
| Keyed.UpsertKeys | apps/api/database.py:17-19 | Assigning a key never moves an existing key: the key order is unchanged, or extended by the new key at the end |
| Keyed.UpsertKeySet | apps/web/src/hooks/use-steps.ts:30-36 | After an upsert, the set of keys is the old set plus the new element's key |
| Keyed.UpsertIdempotent | apps/web/src/hooks/use-steps.ts:29-36 | Upserting the same element twice equals upserting it once |
| Keyed.LookupAfterUpsert | apps/api/database.py:28-30 | After a write, a read of the written key returns the written value, and a read of any other key returns what it returned before |
| Keyed.UpsertKeepsUniqueKeys | apps/api/database.py:12-13 | Upserts keep every key unique, so the tables stay dictionaries |
| Keyed.FirstIndexAfterReplace | apps/web/src/hooks/use-steps.ts:30-34 | After an in-place replace, the first index of the key is unchanged |
| Keyed.FirstIndexOfLast | apps/web/src/hooks/use-steps.ts:36 | An appended new key is found at the old length |
| Keyed.FirstIndexUnaffected | apps/web/src/hooks/use-steps.ts:32-33 | Overwriting one key's slot does not change where any other key is found |
| Keyed.FirstIndexAppendOther | apps/web/src/hooks/use-steps.ts:36 | Appending an element with one key does not change where any other key is found |
| JsObject.Get | apps/web/src/lib/cost.ts:17 | `table[key]` is the own value exactly for a table key, the inherited member exactly for an `Object.prototype` name the table lacks, and `undefined` otherwise |
| JsObject.Nullish | apps/web/src/lib/cost.ts:17 | `??` replaces only `undefined` by the fallback and keeps everything else, inherited members included |
| JsObject.OrElse | apps/web/src/components/dashboard/trace-table.tsx:151 | `\|\|` replaces `undefined` and the empty string by the fallback and keeps non-empty strings and inherited members |
| Seqs.Filter | apps/web/src/components/explorer/run-explorer.tsx:41 | `filter` keeps only elements that satisfy the predicate and never lengthens the list |
| Seqs.FilterSound | apps/api/websocket_manager.py:24 | Every kept element comes from the input |
| Seqs.FilterComplete | apps/web/src/components/explorer/run-explorer.tsx:41-50 | Every input element that satisfies the predicate is kept |
| Seqs.FilterIsSubsequence | apps/web/src/components/explorer/run-explorer.tsx:41 | A filter result is an order-preserving subsequence of its input |
| Seqs.FilterAppend | apps/api/websocket_manager.py:24 | Filtering a concatenation is concatenating the filtered parts |
| Seqs.FilterAll | apps/web/src/components/explorer/run-explorer.tsx:43-48 | A predicate that holds everywhere filters nothing out |
| Seqs.SumAppend | apps/web/src/components/dashboard/stats-bar.tsx:21-27 | A `reduce` sum over a concatenation is the sum of the parts' sums |
| Seqs.SumNonNegative | apps/web/src/components/layout/header-stats.tsx:46-48 | A sum of non-negative terms is non-negative |
| Seqs.CountSplit3 | apps/web/src/components/dashboard/stats-bar.tsx:13-15 | Counts over three disjoint classes that together cover the list add up to its length |
| Ordering.LtIrreflexive | apps/api/database.py:25 | No string sorts before itself |
| Ordering.LtTrichotomy | apps/api/database.py:25 | Of two strings, exactly one of less, equal or greater holds |
| Ordering.LtTransitive | apps/api/database.py:25 | String order is transitive |
| Ordering.LeTotal | apps/api/database.py:44 | Any two timestamps are comparable |
| Ordering.Insert | apps/api/database.py:25 | One insertion step of the stable sort adds exactly the inserted element |
| Ordering.SortBy | apps/api/database.py:25 | `sorted` returns a permutation of its input |
| Ordering.InsertSorted | apps/api/database.py:42-45 | Inserting into a sorted list keeps it sorted |
| Ordering.SortBySorted | apps/api/database.py:25 | `sorted(..., key, reverse)` is ordered by the key, ascending or descending |
| Ordering.InsertStable | apps/api/database.py:42-45 | Inserting keeps, for each key, the relative order of the elements with that key |
| Ordering.SortByStable | apps/api/database.py:25 | The sort is stable: elements with equal keys keep their input order, also with `reverse=True` |
| Ordering.SortBySortedIdentity | apps/api/database.py:42-45 | Sorting an already sorted list returns it unchanged |
| Ordering.PrefixLength | apps/api/database.py:26 | `s[:limit]` has `min(limit, n)` elements for a non-negative limit and counts from the end for a negative one |
| Ordering.TakePrefix | apps/api/database.py:26 | `s[:limit]` is the prefix of that length |
| StepCache.UpsertStep | apps/web/src/hooks/use-steps.ts:28-37 | With no list cached the result is `[step]`; a present id is replaced at its first index with everything else unchanged; an absent id is appended; the key set grows by the step's id and the id order never changes |
| StepCache.UpsertStepIdempotent | apps/web/src/hooks/use-steps.ts:29-36 | Delivering the same step twice leaves the list as delivering it once |
| StepCache.UpsertStepLookup | apps/web/src/hooks/use-steps.ts:30-36 | After the updater, reading the list by id gives the new step for its own id and the old answer for every other id |
| StepCache.UpsertKeepsPosition | apps/web/src/hooks/use-steps.ts:30-34 | Inserting A, then B, then an updated A' gives `[A', B]` |
| EventRouter.ApplyUpsert | apps/web/src/hooks/use-steps.ts:26-27 | Only the cache entry keyed by the step's own run id is written, with the updater's result; every other entry and the runs are unchanged |
| EventRouter.Route | apps/web/src/hooks/use-websocket.ts:14-25 | A step update goes to the upsert unchanged; a run update replaces the run entry wholesale and invalidates the run list once; any other message changes nothing |
| EventRouter.RouteIdempotent | apps/web/src/hooks/use-websocket.ts:16-19 | A duplicated message leaves the cached steps and runs as a single delivery does |
| EventRouter.RunUpdateReplacesWholesale | apps/web/src/hooks/use-websocket.ts:19 | After a run update the cached run is exactly the message's run, whether or not one was cached, and other runs are untouched |
| EventRouter.EndToEndFeed | apps/web/src/hooks/use-websocket.ts:14-25 | The message sequence of a two-step run leaves both steps cached in first-seen order, with the final snapshot of each and the run completed |
| EventRouter.QueryClient.constructor | apps/web/src/hooks/use-websocket.ts:12 | The cache starts empty |
| EventRouter.QueryClient.UpsertStep | apps/web/src/hooks/use-steps.ts:24-41 | The callback performs exactly the cache write `ApplyUpsert` describes |
| EventRouter.QueryClient.HandleMessage | apps/web/src/hooks/use-websocket.ts:14-25 | The handler changes the cache exactly as `Route` describes |
| LiveConnection.ClassifyFrame | apps/web/src/lib/websocket.ts:36-44 | "pong" is discarded before parsing; a frame that does not parse is logged; every other frame reaches the handler as parsed |
| LiveConnection.CloseRequested | apps/web/src/lib/websocket.ts:56 | `close()` moves a connecting or open transport to closing and leaves a closing or closed one as it is |
| LiveConnection.RunWebSocket.constructor | apps/web/src/lib/websocket.ts:7-18 | A new client is not closed and holds no transport and no timers |
| LiveConnection.RunWebSocket.Connect | apps/web/src/lib/websocket.ts:20-24 | Once `closed`, nothing happens, even with a transport still open; otherwise one new connecting transport to `<url>/ws/runs/<runId>` (`SubscriptionUrl`) becomes the current one; nothing else changes |
| LiveConnection.RunWebSocket.OnOpen | apps/web/src/lib/websocket.ts:26-34 | Opening marks the transport open and starts exactly one 30000 ms heartbeat, held in `pingTimer` |
| LiveConnection.RunWebSocket.OnPingTick | apps/web/src/lib/websocket.ts:29-33 | A heartbeat sends "ping" exactly when the current transport is open, and nothing otherwise |
| LiveConnection.RunWebSocket.OnMessage | apps/web/src/lib/websocket.ts:36-44 | A discarded frame changes nothing; a bad frame only logs; a parsed frame reaches the query client's handler; nothing escapes |
| LiveConnection.RunWebSocket.OnError | apps/web/src/lib/websocket.ts:54-57 | An error only asks the current transport to close; timers and flags are untouched |
| LiveConnection.RunWebSocket.OnClose | apps/web/src/lib/websocket.ts:46-52 | Closing clears the heartbeat and schedules exactly one 2000 ms reconnect if and only if `closed` is false |
| LiveConnection.RunWebSocket.ScheduleReconnect | apps/web/src/lib/websocket.ts:60-65 | One reconnect timeout of 2000 ms is added under a fresh handle and recorded in `reconnectTimer` |
| LiveConnection.RunWebSocket.ClearPing | apps/web/src/lib/websocket.ts:67-72 | The heartbeat timer is removed if there is one, and `pingTimer` is cleared; a second call changes nothing |
| LiveConnection.RunWebSocket.OnReconnectTimer | apps/web/src/lib/websocket.ts:61-64 | The reconnect timeout fires once and calls connect, which opens a new transport, since a pending reconnect exists only while not closed |
| LiveConnection.RunWebSocket.Disconnect | apps/web/src/lib/websocket.ts:74-85 | Sets `closed`, removes every timer, asks the current transport to close and drops it; the send log and error count are untouched |
| LiveConnection.DisconnectIsFinal | apps/web/src/lib/websocket.ts:46-52 | After disconnect, a connect before or after the dropped transport's late close opens no transport, and the late close schedules no timer: the client ends closed, with no timers, no new transport and every transport closed |
| Subscription.RunSubscription.constructor | apps/web/src/hooks/use-websocket.ts:10 | The ref starts empty |
| Subscription.RunSubscription.Mount | apps/web/src/hooks/use-websocket.ts:27-32 | No client is created without a run id (`Subscribes`) and the ref is left alone; otherwise one new client for that run, writing to the query client, with one connecting transport to the run's URL as its current one, no timers and nothing sent, is stored in the ref |
| Subscription.RunSubscription.Cleanup | apps/web/src/hooks/use-websocket.ts:34-37 | Cleanup disconnects the client for good, with no timers left, asks its current transport to close, leaves every other transport, the sent frames and the logged errors as they were, and clears the ref |
| Subscription.RunSubscription.SwitchRun | apps/web/src/hooks/use-websocket.ts:27-38 | Changing runs disconnects the old client exactly as cleanup does, asking its transport to close; then, for a run id, one new client for the next run is opened exactly as mount does, and without one the ref stays empty |
| GraphLayout.TopLeft | apps/web/src/components/graph/graph-utils.ts:44-47 | A node's position is its layout centre minus (130, 44); a missing centre counts as the origin |
| GraphLayout.StrokeFor | apps/web/src/components/graph/graph-utils.ts:60-65 | The stroke is red exactly for a failed target, blue exactly for a running one, and gray otherwise |
| GraphLayout.EdgeFor | apps/web/src/components/graph/graph-utils.ts:54-67 | An edge's id is `parent-child`, its source the parent and its target the step; it is animated exactly when the step is running; its width is 2 |
| GraphLayout.Nodes | apps/web/src/components/graph/graph-utils.ts:39-50 | One node per step, in input order |
| GraphLayout.Edges | apps/web/src/components/graph/graph-utils.ts:52-68 | One edge per step with a truthy parent (`HasParent`), in input order |
| GraphLayout.NodesMatchSteps | apps/web/src/components/graph/graph-utils.ts:39-50 | The i-th node (`NodeFor`) has the i-th step's id, type "stepNode", the step as data and its top-left corner |
| GraphLayout.EdgeForEveryParentedStep | apps/web/src/components/graph/graph-utils.ts:52-53 | Every step with a parent yields its edge |
| GraphLayout.EdgesComeFromSteps | apps/web/src/components/graph/graph-utils.ts:52-68 | Every edge comes from some step with a parent |
| GraphLayout.DanglingParentKeepsEdge | apps/web/src/components/graph/graph-utils.ts:52-57 | A parent id that names no listed step still yields an edge, with no node as its source |
| GraphLayout.EdgeCountBounded | apps/web/src/components/graph/graph-utils.ts:39-52 | In `ComputeGraphLayout`, the edge count is the number of steps with a parent, which never exceeds the node count |
| GraphLayout.EmptyLayout | apps/web/src/components/graph/graph-utils.ts:39-70 | `ComputeGraphLayout` of no steps gives no nodes and no edges |
| Cost.RatesFor | apps/web/src/lib/cost.ts:17 | A listed model gets its own rates; a model the table lacks gets the `default` rates, unless its name is inherited from `Object.prototype`, which yields that inherited member instead |
| Cost.ComputeCost | apps/web/src/lib/cost.ts:12-22 | `computeCost` gives `NaN` exactly when the model name reaches an inherited `Object.prototype` member rather than a rate |
| Cost.RateTableEntries | apps/web/src/lib/cost.ts:6-10 | The table has exactly gpt-4 (0.03/0.06), claude-3.5 (0.003/0.015) and default (0.01/0.03) |
| Cost.DefaultModel | apps/web/src/lib/cost.ts:12-22 | Omitting the model prices at the default rates, and so does naming an unknown model, unless the name is inherited from `Object.prototype`: that prices at `NaN` |
| Cost.Gpt4Example | apps/web/src/lib/cost.ts:7-21 | 1000 prompt and 500 completion tokens on gpt-4 cost 0.06 |
| Cost.ZeroTokensCostNothing | apps/web/src/lib/cost.ts:12-22 | Zero tokens cost zero on every model, except that an inherited name gives `NaN` |
| Cost.CostNonNegative | apps/web/src/lib/cost.ts:12-22 | Non-negative token counts cost a non-negative amount; the result is `NaN` exactly for an inherited name |
| Cost.CostMonotone | apps/web/src/lib/cost.ts:12-22 | The cost never decreases as either token count grows; more tokens never turn a number into `NaN` or back |
| Database.Store.constructor | apps/api/database.py:11-13 | Both tables start empty |
| Database.Store.CreateRun | apps/api/database.py:17-19 | Inserts or overwrites by run id (the last write wins, in place); the run is readable afterwards and no other id's read changes; the step table is not touched |
| Database.Store.UpdateRun | apps/api/database.py:28-30 | The same keyed write as `create_run` |
| Database.Store.GetRun | apps/api/database.py:21-22 | None exactly for ids never written; otherwise a stored run with that id |
| Database.Store.ListRuns | apps/api/database.py:24-26 | `min(limit, n)` runs, newest `created_at` first, taken from the stored runs: the prefix of the stable descending sort |
| Database.Store.CreateStep | apps/api/database.py:34-36 | Inserts or overwrites by step id in the one table shared by all runs; the run table is not touched |
| Database.Store.UpdateStep | apps/api/database.py:47-49 | The same keyed write as `create_step` |
| Database.Store.GetStep | apps/api/database.py:38-39 | None exactly for ids never written; otherwise a stored step with that id |
| Database.Store.GetStepsForRun | apps/api/database.py:41-45 | Exactly the stored steps with that run id, as a permutation of them, in ascending `started_at` order |
| Database.SameMembers | apps/api/database.py:43 | A permutation of the run's filtered steps holds exactly the steps of that run |
| Database.ListRunsStable | apps/api/database.py:25-26 | Listed runs with equal `created_at` keep their insertion order |
| Database.NewestFirst | apps/api/database.py:25 | No stored run was created later than the first listed run |
| Database.StepsForRunStable | apps/api/database.py:42-45 | A run's steps that started at the same instant come out in the order they were first written |
| Database.EmptyListing | apps/api/database.py:26 | A zero limit, or a negative limit that reaches past the start of the table, lists nothing |
| Database.TablesAreIndependent | apps/api/database.py:17-49 | Run writes never change the step table, and step writes never change the run table |
| Rooms.Deliveries | apps/api/websocket_manager.py:33-37 | Every recipient gets the same serialized payload, in room order |
| Rooms.WithRoom | apps/api/websocket_manager.py:24-26 | A room left empty is deleted; otherwise it is stored |
| Rooms.ConnectionManager.constructor | apps/api/websocket_manager.py:14-15 | No rooms at first |
| Rooms.ConnectionManager.Connect | apps/api/websocket_manager.py:17-19 | The socket is appended to its run's room, which is created if absent |
| Rooms.ConnectionManager.Disconnect | apps/api/websocket_manager.py:22-26 | Every occurrence of the socket is removed by identity and the rest keep their order; an emptied room is deleted; an unknown run is a no-op |
| Rooms.ConnectionManager.Broadcast | apps/api/websocket_manager.py:29-41 | No room means no sends; otherwise every live socket receives the payload in room order, and exactly the sockets whose send raised are removed |
| Rooms.ConnectionManager.SendAll | apps/api/websocket_manager.py:34-39 | The send loop records a delivery for each socket that did not raise and collects exactly the ones that did |
| Rooms.ConnectionManager.DropAll | apps/api/websocket_manager.py:40-41 | The cleanup loop leaves the room without the stale sockets, deleting it if empty |
| Rooms.PruneStep | apps/api/websocket_manager.py:40-41 | Removing one more stale socket from what is left equals removing all of them so far at once |
| Rooms.StaleRemoval | apps/api/websocket_manager.py:34-41 | Disconnecting the sockets whose send raised leaves exactly the live ones, in order |
| Rooms.DisconnectRemovesOnlyThatSocket | apps/api/websocket_manager.py:24 | After removal, the socket is gone and every other socket of the room is still there, as a subsequence |
| Rooms.ConnectThenDisconnect | apps/api/websocket_manager.py:19-24 | Connecting a socket new to a room and disconnecting it restores the room |
| Rooms.DisconnectIsLocal | apps/api/websocket_manager.py:22-26 | Disconnecting from one room leaves every other room as it was |
| Simulator.BackendPricingMatchesClient | apps/api/simulator.py:17-33 | The backend's table equals the client's, and `compute_cost` (`Simulator.ComputeCost`) always uses the `default` rates because the model key is fixed |
| Simulator.StartStep | apps/api/simulator.py:43-65 | A new step is running and carries the blueprint's name, type, token counts, computed cost, input and the given parent; it raises exactly when the type tag names no step type |
| Simulator.Simulation.constructor | apps/api/simulator.py:137 | An empty outbox, and no ids or clock readings used |
| Simulator.Simulation.FreshId | apps/api/simulator.py:43 | Each step id is the next fresh id drawn |
| Simulator.Simulation.Now | apps/api/simulator.py:78 | Each clock reading is the next one |
| Simulator.Simulation.EmitStep | apps/api/simulator.py:36-105 | `emit_step` changes the store and outbox exactly as `Emit` describes: create, broadcast running, finish as completed or failed, update, broadcast again |
| Simulator.Simulation.StoreAndFinish | apps/api/simulator.py:66-105 | Once the step exists it is stored and broadcast running, then finished, stored and broadcast again, exactly as `EmitRest` describes |
| Simulator.Simulation.StoreRunning | apps/api/simulator.py:66-78 | The running step is upserted into the table and broadcast, and the end time is the next clock reading |
| Simulator.Simulation.Finish | apps/api/simulator.py:79-105 | The finished step replaces the stored one and is broadcast, returning its id; when building its error raises, the partly changed step is what the table holds and nothing is broadcast |
| Simulator.Simulation.WalkScenario | apps/api/simulator.py:108-134 | The recursive walk changes the state exactly as `Walk` describes |
| Simulator.Simulation.RecordRoot | apps/api/simulator.py:119-127 | The root's id is written onto the run, which is re-broadcast, when the run exists |
| Simulator.Simulation.WalkChildren | apps/api/simulator.py:130-134 | Children are walked in list order under the parent's id, stopping at the first that raises |
| Simulator.Simulation.RunSimulation | apps/api/simulator.py:137-171 | An unknown scenario changes nothing; otherwise the walk is followed by finalizing the run as completed, or as failed if the walk raised |
| Simulator.Simulation.FinishRun | apps/api/simulator.py:149-171 | A run that exists gets the given final status and the next clock reading as its update time, is stored and broadcast; a missing run changes nothing |
| WalkProperties.ExpectedShape | apps/api/simulator.py:108-134 | The pre-order listing has one entry per node, the root first under the given parent, and draws consecutive ids; it passes exactly when every node is well formed |
| WalkProperties.ExpectedFromShape | apps/api/simulator.py:133-134 | The listing of the children `i..` has one entry per node and draws consecutive ids; it passes exactly when every one of those children is well formed |
| WalkProperties.ParentsComeFirst | apps/api/simulator.py:116-134 | Every emitted step after the first names, as its parent, the id of a step emitted earlier |
| WalkProperties.ParentsWithin | apps/api/simulator.py:133-134 | Each child listing entry is under the given parent id, or under the id of an earlier entry |
| WalkProperties.EmitMatches | apps/api/simulator.py:36-105 | One emission broadcasts the node's messages, draws one id and, when it gets through, two clock readings; it never touches the run table |
| WalkProperties.NodePair | apps/api/simulator.py:69-103 | A node that gets through (`FinishStep`) is broadcast twice with the same id and parent: running first, then completed, or failed with type error, empty output and its error; its duration is the blueprint's |
| WalkProperties.ErrorForCases | apps/api/simulator.py:85-88 | `ErrorFor`: the stock "Step failed unexpectedly" is used when the error data is missing or empty; error data without a message raises; otherwise the message, stack and code are the data's |
| WalkProperties.ChainAppend | apps/api/simulator.py:133-134 | Walking a concatenation in which every node of the first part passes broadcasts the first part's messages and then the second's, with the clock moved on by two per node |
| WalkProperties.ChainStops | apps/api/simulator.py:144-146 | Nothing is broadcast after a node that raised |
| WalkProperties.ChainPairs | apps/api/simulator.py:69-103 | When every node passes, node k's two broadcasts are at positions 2k and 2k+1 |
| WalkProperties.MsgsAppend | apps/api/simulator.py:133-134 | The broadcasts of a concatenated listing that passes are those of its parts, in order |
| WalkProperties.MsgsStopsAt | apps/api/simulator.py:144-146 | A listing with a failing node broadcasts nothing after it |
| WalkProperties.MsgsPairs | apps/api/simulator.py:69-103 | With no failure, each step is broadcast exactly twice and node k's pair sits at positions 2k and 2k+1 |
| WalkProperties.MsgsCons | apps/api/simulator.py:116-134 | A listing's broadcasts are its head's, followed by the rest's only if the head passes |
| WalkProperties.WalkCounts | apps/api/simulator.py:108-134 | A non-root walk never touches the run table; when it gets through, it has drawn one id and two clock readings per node |
| WalkProperties.WalkFromCounts | apps/api/simulator.py:133-134 | Walking the children never touches the run table; when it gets through, it has drawn one id and two clock readings per node |
| WalkProperties.WalkSucceedsIff | apps/api/simulator.py:108-134 | The walk gets through exactly when every node of the tree is well formed |
| WalkProperties.WalkFromSucceedsIff | apps/api/simulator.py:133-134 | Walking children `i..` gets through exactly when each of them is well formed |
| WalkProperties.WalkPassesIff | apps/api/simulator.py:108-134 | The walk of a subtree gets through exactly when its pre-order listing passes, and the listing has one entry per node |
| WalkProperties.WalkFollowsPreOrder | apps/api/simulator.py:108-134 | A non-root `Walk` appends exactly the pre-order listing's broadcasts to the outbox, each child under its parent's fresh id, up to and including the first node that raised |
| WalkProperties.RootWalkBroadcasts | apps/api/simulator.py:116-134 | The root walk broadcasts the root step's messages; when the root step got through, the run carrying the root's id follows (when the run exists), then the children's listings in pre-order, up to and including the first node that raised |
| WalkProperties.WalkFromFollowsPreOrder | apps/api/simulator.py:130-134 | `WalkFrom` over children `i..` appends exactly their listings' broadcasts, one after the other |
| WalkProperties.RootRecordsItsId | apps/api/simulator.py:119-127 | The root walk records the root's fresh id on the run when the root step gets through, and otherwise leaves the run table as it was |
| WalkProperties.SimulationOutcome | apps/api/simulator.py:137-171 | After `Simulate` (the walk, then `Finalize`) the run is completed exactly when every scenario node is well formed and failed otherwise, with the root id recorded when the root got through; the final run is broadcast last, after everything the walk broadcast |
| Totals.RealSumAppend | apps/web/src/components/dashboard/stats-bar.tsx:24 | A cost sum over a concatenation is the sum of the parts' sums |
| Totals.TokensSplit | apps/web/src/components/layout/header-stats.tsx:47-49 | Summing per-step prompt plus completion equals the prompt total plus the completion total |
| Totals.StepsOf | apps/web/src/components/dashboard/trace-table.tsx:48 | A run missing from the map has no steps; a present run has its own list, the map holding each run id once |
| Totals.FlattenAppend | apps/web/src/components/dashboard/stats-bar.tsx:21-27 | The steps of two groups of runs are the steps of each, in order |
| Totals.FlattenSnoc | apps/web/src/components/dashboard/stats-bar.tsx:21 | The outer loop's next run adds its own list after those already visited |
| Totals.FlattenLength | apps/web/src/components/dashboard/stats-bar.tsx:26 | The total number of steps is the sum of the per-run list lengths |
| Totals.SumFlatten | apps/web/src/components/dashboard/stats-bar.tsx:21-25 | Summing over all steps equals summing each run's steps and then the per-run results |
| Explorer.ToLower | apps/web/src/components/explorer/run-explorer.tsx:44 | Lower-casing keeps the length and maps each character to its lower-case letter |
| Explorer.ContainsIff | apps/web/src/components/explorer/run-explorer.tsx:44-45 | `includes` holds exactly when the text occurs at some offset |
| Explorer.Filtered | apps/web/src/components/explorer/run-explorer.tsx:40-51 | Every shown step passes the search, type and status tests, and no more steps are shown than exist |
| Explorer.FilteredExactly | apps/web/src/components/explorer/run-explorer.tsx:41-49 | A step is shown exactly when it passes `MatchesSearch`, `MatchesType` and `MatchesStatus`, and the result is an order-preserving subsequence, so the shown count is at most the total |
| Explorer.NoFilterShowsAll | apps/web/src/components/explorer/run-explorer.tsx:43-48 | An empty search with both filters on "all" shows every step |
| Explorer.ToLowerIdempotent | apps/web/src/components/explorer/run-explorer.tsx:44 | Lower-casing twice is lower-casing once |
| Explorer.SearchIgnoresNameCase | apps/web/src/components/explorer/run-explorer.tsx:44 | The name match ignores the name's case |
| Explorer.SearchFindsOwnId | apps/web/src/components/explorer/run-explorer.tsx:44-45 | Searching for a step's own id or name finds it |
| Explorer.RowCells | apps/web/src/components/explorer/run-explorer.tsx:164-172 | Duration, tokens and cost each show their value exactly when it is positive, and "—" otherwise |
| HeaderStats.Icon | apps/web/src/components/layout/header-stats.tsx:53-57 | Running gives the spinner, completed the check and failed the cross, each for that status only |
| HeaderStats.FiguresOf | apps/web/src/components/layout/header-stats.tsx:46-51 | Without steps every figure is 0; the token total is the prompt total plus the completion total; the step count is the list length |
| HeaderStats.Render | apps/web/src/components/layout/header-stats.tsx:24-57 | Loading takes precedence; then a missing run shows only the prompt; otherwise the run's icon and its figures are shown |
| HeaderStats.TokensArePerStepTokens | apps/web/src/components/layout/header-stats.tsx:47-49 | The header's token total is the per-step token sum the other components use |
| HeaderStats.FiguresGrow | apps/web/src/components/layout/header-stats.tsx:46-51 | One more step adds exactly its own numbers to each figure and 1 to the count |
| HeaderStats.FiguresNonNegative | apps/web/src/components/layout/header-stats.tsx:46-49 | Steps with no negative numbers give no negative figures |
| AutomationCard.StatusDot | apps/web/src/components/cards/automation-card.tsx:14-18 | Every run status has a dot colour from the three-entry table |
| AutomationCard.CardFor | apps/web/src/components/cards/automation-card.tsx:23-65 | The card carries the run's status dot and description; without steps the count is 0 and no total is shown; otherwise the count is the list length |
| AutomationCard.DescriptionShape | apps/web/src/components/cards/automation-card.tsx:57 | `Description` is the system type, followed by " · " and the first tag exactly when there are tags |
| AutomationCard.CardAgreesWithHeader | apps/web/src/components/cards/automation-card.tsx:23-32 | The card and the run header agree on the step count and on every total the card shows |
| StatsBar.StatusCount | apps/web/src/components/dashboard/stats-bar.tsx:13-15 | A status count never exceeds the number of runs |
| StatsBar.ShowTokens | apps/web/src/components/dashboard/stats-bar.tsx:37 | Tokens are shown in thousands exactly when the total exceeds 1000, and as a plain number otherwise |
| StatsBar.AddUpSteps | apps/web/src/components/dashboard/stats-bar.tsx:17-27 | The nested loops give the token sum and the cost sum over every step of every run, and the total number of steps |
| StatsBar.Stats | apps/web/src/components/dashboard/stats-bar.tsx:29-45 | Exactly seven stats in fixed label order, showing the run count, the three status counts, the step total, the token total and the cost total |
| StatsBar.StatusCountsAddUp | apps/web/src/components/dashboard/stats-bar.tsx:13-15 | The running, completed and failed counts add up to the number of runs |
| StatsBar.TotalsArePerRunSums | apps/web/src/components/dashboard/stats-bar.tsx:21-27 | The step total is the sum of the list lengths, and the token total is the sum of the per-run token totals |
| TraceTable.DurationsOf | apps/web/src/components/dashboard/trace-table.tsx:58 | The sparkline values are the step durations, in order |
| TraceTable.TableRows | apps/web/src/components/dashboard/trace-table.tsx:46-70 | At most 10 rows, one `RowFor` each of the first runs, in input order |
| TraceTable.LaterRunsIgnored | apps/web/src/components/dashboard/trace-table.tsx:47 | Runs after the tenth never change the table |
| TraceTable.MissingRunIsEmpty | apps/web/src/components/dashboard/trace-table.tsx:48-59 | A run missing from the map shows no steps, zero totals and the placeholder sparkline |
| TraceTable.SparkMatchesTotal | apps/web/src/components/dashboard/trace-table.tsx:49-63 | A row (`RowFor`) has one sparkline point per step, and its points add up to the row's duration total; the placeholder appears exactly when there are no steps |
| TraceTable.SumOfDurations | apps/web/src/components/dashboard/trace-table.tsx:49-58 | Summing the sparkline values is summing the step durations |
| TraceTable.EmptyMessageIff | apps/web/src/components/dashboard/trace-table.tsx:162-166 | The "No trace runs yet" message shows exactly when there are no runs |
| TraceTable.StatusStylesCoverStatuses | apps/web/src/components/dashboard/trace-table.tsx:37-41 | Each run status has its own non-neutral style; a status outside the three falls back to the neutral style, unless it names an `Object.prototype` member, which is kept instead |
| TraceTable.StatusStyle | apps/web/src/components/dashboard/trace-table.tsx:151 | The badge style is never `undefined`; a table status gets its table style; it is an inherited member exactly when the status is not in the table and names an `Object.prototype` member |
| TraceTable.RowAgreesWithCard | apps/web/src/components/dashboard/trace-table.tsx:48-63 | A row and the run's card agree on the step count and on when each total is shown |
| MetricsPanel.Denominator | apps/web/src/components/dashboard/metrics-panel.tsx:78 | `n \|\| 1` is at least 1 and equals n for any positive n |
| MetricsPanel.Round | apps/web/src/components/dashboard/metrics-panel.tsx:41 | `Math.round` gives the nearest integer, with halves rounded up |
| MetricsPanel.AddOneStep | apps/web/src/components/dashboard/metrics-panel.tsx:49-54 | One more step adds its tokens, cost and duration to the running totals and 1 to the count |
| MetricsPanel.AddUpSteps | apps/web/src/components/dashboard/metrics-panel.tsx:43-55 | The nested loops give the token, cost and duration sums over every step of every run, and the step count |
| MetricsPanel.ComputeMetrics | apps/web/src/components/dashboard/metrics-panel.tsx:37-67 | The success rate is the rounded completed percentage over `runs.length \|\| 1`; the run total and failed count are counts; token and cost totals are sums over all steps; the average duration is 0 with no steps and otherwise times the step count gives the duration total |
| MetricsPanel.SuccessRateIsPercentage | apps/web/src/components/dashboard/metrics-panel.tsx:38-41 | `SuccessRate` lies between 0 and 100, is 0 when no run completed and 100 when every run completed |
| MetricsPanel.TallySnoc | apps/web/src/components/dashboard/metrics-panel.tsx:71-76 | Counting one more type name counts it into the tally of the names before it |
| MetricsPanel.CountOne | apps/web/src/components/dashboard/metrics-panel.tsx:74 | The read-then-set update counts a known type one more, in its place, and appends a new type with count 1 |
| MetricsPanel.CountRun | apps/web/src/components/dashboard/metrics-panel.tsx:73-75 | The inner loop counts a run's step types into the tally of the names seen so far |
| MetricsPanel.CountTypes | apps/web/src/components/dashboard/metrics-panel.tsx:71-76 | The loops produce the tally of the step types of every step of every run, in visiting order |
| MetricsPanel.Distribution | apps/web/src/components/dashboard/metrics-panel.tsx:70-92 | One legend entry per tallied type, with its count and colour; the denominator is the total number of steps, or 1 when there are none |
| MetricsPanel.BumpCovers | apps/web/src/components/dashboard/metrics-panel.tsx:74 | Counting a name keeps the types unique and keeps them exactly the names seen |
| MetricsPanel.BumpCounts | apps/web/src/components/dashboard/metrics-panel.tsx:74 | Counting a name keeps every count equal to that name's number of occurrences, with the counts adding up to the number of names |
| MetricsPanel.BumpOrder | apps/web/src/components/dashboard/metrics-panel.tsx:74-87 | Counting a name keeps the types in first-seen order |
| MetricsPanel.TallyOfCounts | apps/web/src/components/dashboard/metrics-panel.tsx:71-87 | `TallyOf` (repeated `Bump`) lists each type present exactly once and no other; each count is that type's number of steps; the counts add up to the number of steps; types appear in the order they were first seen |
| MetricsPanel.ColorsCoverStepTypes | apps/web/src/components/dashboard/metrics-panel.tsx:79-90 | Each of the five step types has its own colour, different from the others; any other name gets the gray fallback, unless it names an `Object.prototype` member, which is kept instead |
| MetricsPanel.TypeColor | apps/web/src/components/dashboard/metrics-panel.tsx:90 | A colour is never `undefined`; a listed type gets its colour; it is an inherited member exactly when the type is not listed and names an `Object.prototype` member |

## Left out

- Layout placement: node centres come from an external layered-layout library. They are the parameter `centre`, a function that may have no entry for an id. The library's ranks and coordinates are not modelled.
- Floating point: amounts are exact `real` values. The backend's `round(..., 6)`, the `toFixed` displays, the percentage text of the distribution legend and IEEE rounding of the sums are not modelled. `MetricsPanel.Round` models `Math.round` on the exact ratio.
- Randomness: the trace table's random sparkline for a run without steps is the `Placeholder` value. The latency chart is not part of this model.
- Formatting: `formatDuration`, `formatTokens`, `formatCost` and `formatTimestamp` are not part of this model. Cells and stats carry the numbers they format. The "x.xk" token text is the `Thousands` value.
- Timers and the network: browser transports, `setInterval` and `setTimeout` are client state. Each timer records its delay (30000 ms for the heartbeat, 2000 ms for the reconnect). Events are methods whose preconditions are the browser's guarantees. The passage of time is not modelled: any pending timer may fire at any point, whatever its delay. The handler throwing is not modelled.
- `LiveConnection.RunWebSocket.Connect` requires a client that is closed, or quiescent (no live transport and no pending reconnect). Every call site meets this, so opening a second socket while one is live is not modelled.
- TraceTable.StatusStyle and MetricsPanel.TypeColor yield the inherited member itself for an `Object.prototype` name. What `cn` and the style attribute make of that value is not modelled; `cn` is not part of this model.
- `WS_URL` is the fixed default `ws://localhost:8000`. The environment override is not modelled.
- Message payloads: `json.dumps` and `JSON.parse` are opaque. The rooms' payload is a string, and the client's parse result is a parameter.
- Send failures in a broadcast are an oracle `fails`. `ws.accept()` and logging are not modelled.
- Awaits: the backend is modelled as sequential. Interleavings of concurrent simulations at their `await` points are not modelled, nor is `asyncio.sleep(delay_s)`.
- Fresh ids and clock readings are an environment `Env`: the n-th id and the n-th reading.
- Aliasing: `emit_step` changes the very step object the store holds. The model writes the changed step back, which leaves the store in the same state.
- Scenario catalogue: `SCENARIOS` is a parameter map, not the static data in `scenarios.py`.
- Database exceptions and Pydantic validation of stored objects are not modelled. Only the step-type enum conversion and the `StepError` construction raise.
- `|| 0` on numeric step fields: every step carries its numbers, so the field is read as it is. Absent fields are not modelled.
- Lower-casing covers ASCII letters only. JavaScript's full Unicode case mapping is not modelled.
- HTTP routes, CORS, the fetch wrappers, polling intervals, the query-client singleton and the rendering components are not part of this model.
- A run's or step's record is exactly what the data-shape files declare, with timestamps as opaque strings compared code point by code point.
