# Click broadcast hub — a Dafny model

This project models the in-memory broadcast hub of `server.py`, a small game server.
Clients submit "clicks" over a WebSocket or with an HTTP POST. The hub appends each
click to a global history and pushes the full history to every connected WebSocket
client. A client whose push fails is dropped from the list of live connections.

The hub's state is two lists: `click_history` and `active_connections`. The model keeps
them as an immutable `Hub(history, conns)` value. Every handler becomes a pure
transition function over that value:

- `Clicks`: the record `{client_id, data, source}` and the two ways of building it.
  The payload `data` is opaque, so it is a type parameter `D`.
- `Registry`: the connection list. It covers `list.remove`, the guarded removal
  `if c in conns: conns.remove(c)`, and the prune loop of `broadcast_state`. It also
  gives `Survivors`, a filter used as an independent reference definition of the
  registry after a broadcast.
- `Server`: `broadcast_state` in two forms. `BroadcastState` is a function.
  `BroadcastLoop` is a method with the source's two loops (`SendAll` then `RemoveAll`).
  The module also holds connect, disconnect cleanup, the WebSocket submit path, the
  `POST /click` handler and `GET /clicks`, plus the invariant `Valid`.
- `Trace`: any sequence of events, applied one at a time in arrival order. `Step` does
  one event and `Run` does a whole sequence. Lemmas here cover the whole life of the
  hub.
- `Scenarios`: small runs whose pushes are proved equal to the expected ones.

A connection is an abstract number standing for `id(websocket)`. Whether a
`send_json` call succeeds is an input: `failing` is the set of connections whose send
raises during that broadcast. Each `Attempt(conn, msg, delivered)` records one send.

Notes on how the model follows the code:

- The code iterates the live `active_connections` list during a broadcast, not a
  frozen copy. Every transition is atomic here, so the two behave the same.
- Registering a connection never checks for duplicates; it just appends. Uniqueness
  is therefore a precondition where it matters (`Valid`, `FreshOpens`).
- The guarded removal is idempotent only while the registry has no duplicates. With a
  duplicated entry, a second removal removes the second copy. `Registry.Discard`
  models that faithfully, and `DiscardIdempotent` requires `NoDup`.
- Pruning after a broadcast removes exactly the failing connections even with
  duplicates (`PruneFailuresIsSurvivors` has no precondition). This rests on the
  model's choice that `failing` is a set of connections: a connection listed twice
  fails on both sends, so it is collected twice and removed twice. The source never
  registers the same socket object twice, so this case is a property of the model's
  abstraction rather than behaviour `server.py` shows.

## Model

| member | source | states |
|---|---|---|
| Registry.RemoveFirst | server.py:39 | `list.remove` drops exactly one occurrence of the connection, so the list shrinks by one and keeps every other entry |
| Registry.RemoveFirstSplits | server.py:39 | `list.remove` finds the first occurrence of the connection and removes just that one; the entries before and after it stay in place and in order |
| Registry.RemoveFirstAt | server.py:39 | once the first occurrence's position is known, `list.remove` is the list with that position cut out |
| Registry.Discard | server.py:76-77 | the membership-guarded removal drops one occurrence of the connection if it is present and no other entry |
| Registry.DiscardAbsent | server.py:76-77 | the guarded removal of a connection that is not registered returns the list unchanged, order included |
| Registry.Prune | server.py:37-39 | the cleanup loop of a broadcast only removes entries; it never adds or duplicates one |
| Registry.Failures | server.py:28-34 | every registered entry is either collected as a failure or kept: the collected list and the survivors together are as long as the registry |
| Registry.FailuresSkip | server.py:28-34 | a connection whose send succeeds is never collected as a failure |
| Registry.FailuresAreFailing | server.py:28-34 | the list collected by the send loop names exactly the registered connections whose send failed, each once per registration |
| Registry.SurvivorsMembers | server.py:36-39 | after pruning, a connection is present iff it was registered and its send succeeded; a succeeding connection keeps all its entries |
| Registry.SurvivorsKeepOrder | server.py:36-39 | the surviving connections keep their relative order |
| Registry.SurvivorsNoDup | server.py:36-39 | pruning never introduces a duplicate connection |
| Registry.SurvivorsTwice | server.py:36-39 | pruning by one failure set and then by another equals pruning once by their union |
| Registry.PruneFailingHead | server.py:28-39 | a failing connection at the front is collected first and its removal takes exactly that entry off the front |
| Registry.PruneKeptHead | server.py:28-39 | a connection at the front whose send succeeds is never collected and stays at the front through the whole prune |
| Registry.PruneFailuresIsSurvivors | server.py:28-39 | the two-phase broadcast (collect failures, then remove each if still present) leaves exactly the registry with the failing connections filtered out, even with duplicates |
| Registry.DiscardIsSurvivors | server.py:76-77 | with unique ids, disconnect cleanup removes exactly that connection and keeps the rest in order |
| Registry.DiscardIdempotent | server.py:76-77 | with unique ids, cleanup leaves the connection absent and a second cleanup changes nothing |
| Registry.DiscardAfterPrune | server.py:37-39 | cleanup of a connection that a broadcast already pruned is a no-op |
| Registry.AppendFresh | server.py:49 | appending a fresh connection keeps the registry duplicate-free, and removing it again restores the registry |
| Server.Start | server.py:15-17 | the hub starts with no clicks and no connections, a state that satisfies the invariant `Valid` |
| Server.Message.Type | server.py:26 | a pushed object's `type` is `"update"` for a broadcast and `"init"` for the first push to a new connection (server.py:54), and nothing else |
| Server.FanOut | server.py:28-34 | one attempt per registered connection in registry order, each with the same message; an attempt succeeds iff its connection is not failing; the failure list is exactly the failing connections in order |
| Server.BroadcastState | server.py:20-39 | the history is untouched; every connection registered at the start gets exactly one `update` carrying the history at the start; the new registry is the old one filtered of failures, keeping order; succeeding connections are never removed and failing ones always are |
| Server.SendAll | server.py:28-34 | the send loop makes one attempt per connection and collects the failures in registry order |
| Server.RemoveAll | server.py:36-39 | the cleanup loop computes the prune of the collected list and only ever removes entries |
| Server.BroadcastLoop | server.py:20-39 | the source's two loops produce the same sends and the same filtered registry as the functional broadcast, and leave the history untouched |
| Server.Connect | server.py:48-54 | accepting a connection appends it at the end of the registry without a duplicate check, leaves the history alone, and sends it `init` with the current history |
| Server.GetClicks | server.py:84-87 | a read returns the current history itself, unchanged; on a valid hub every record in it has one of the two shapes the endpoints build |
| Server.Disconnect | server.py:74-77 | cleanup removes at most one registration of the connection and leaves the history alone |
| Server.SubmitWs | server.py:59-67 | a WebSocket click adds exactly one record at the end of the history; earlier records are unchanged; the record carries the connection's id, the payload verbatim and source `websocket`; every registered connection gets an update with the new history; failures are pruned |
| Server.PostClick | server.py:92-104 | an HTTP click adds exactly one record at the end; it carries `http_poster`, the payload verbatim and source `http`; the response's `click_added` is that last record, with the fixed acknowledgement text; every registered connection gets the update; failures are pruned |
| Server.ReadAfterPost | server.py:84-87 | after a POST, reading the history gives the old history followed by the returned `click_added` |
| Server.ReadAfterSubmitWs | server.py:84-87 | after a WebSocket click, reading the history gives the old history followed by that click's record |
| Server.BroadcastOneSnapshot | server.py:25-30 | all pushes of one broadcast carry the same snapshot, equal to the history when the broadcast began |
| Server.BroadcastIsolation | server.py:28-34 | one connection's send outcome does not depend on which other sends fail |
| Server.DisconnectIdempotent | server.py:76-77 | on a valid hub, cleanup twice equals cleanup once and leaves the connection unregistered |
| Server.DisconnectAfterPrune | server.py:37-39 | the endpoint's cleanup after a broadcast already pruned its connection changes nothing |
| Server.DisconnectCommutesWithBroadcast | server.py:74-77 | on a valid hub, a connection's cleanup and another client's broadcast give the same registry in either order |
| Server.ConnectThenDisconnect | server.py:48-49 | accepting a fresh connection and then cleaning it up restores the hub |
| Server.ConnectKeepsValid | server.py:48-49 | connecting a fresh id keeps the registry duplicate-free and the history well formed |
| Server.DisconnectKeepsValid | server.py:76-77 | cleanup keeps the hub valid |
| Server.BroadcastKeepsValid | server.py:36-39 | a broadcast keeps the hub valid |
| Server.SubmitWsKeepsValid | server.py:63-64 | a WebSocket click keeps every stored record well formed |
| Server.PostClickKeepsValid | server.py:98-99 | an HTTP click keeps every stored record well formed |
| Clicks.Source.Tag | server.py:63 | the `source` field is serialised as `"websocket"` for a WebSocket click and `"http"` for a posted one (server.py:98), and as nothing else |
| Clicks.WsClick | server.py:63 | a WebSocket record carries the connection's id as `client_id`, the payload verbatim and the `"websocket"` tag |
| Clicks.HttpClick | server.py:98 | an HTTP record carries the fixed `client_id` `"http_poster"`, the payload verbatim and the `"http"` tag |
| Clicks.BuiltClicksWellFormed | server.py:63 | both endpoints build well-formed records (a WebSocket record carries a connection id; the HTTP record of server.py:98 carries the poster label), and the two records for the same payload differ |
| Trace.Step | server.py:45-104 | one event (connect, click, post, cleanup or read) never shortens the history and adds at most one record to it |
| Trace.Run | server.py:45-104 | over a run of events in arrival order the history never shrinks and grows by at most one record per event |
| Trace.StepGrows | server.py:45-104 | every event only appends to the history; each push it makes (`init` or `update`) carries the whole history as it stands afterwards; a read or a cleanup adds no record and pushes nothing, and a read changes nothing at all |
| Trace.RunPushesGrow | server.py:20-104 | over any run, the history only grows at its end; every push extends all earlier pushes and is a prefix of the final history, so a subscriber never loses or sees a reordered record |
| Trace.StepKeepsValid | server.py:45-104 | each event keeps the hub valid when a connect uses a fresh id |
| Trace.RunKeepsValid | server.py:45-104 | any run whose connects use fresh ids keeps the registry duplicate-free and every record well formed |
| Scenarios.PostOnFreshHub | server.py:92-104 | one POST on a fresh hub gives a one-record history and no pushes |
| Scenarios.SubscriberSeesEveryClick | server.py:45-67 | a subscriber on an empty hub gets an empty `init`, then an update per click holding all clicks so far, in order |
| Scenarios.PostWithFirstBroken | server.py:20-39 | with two subscribers where the first one's send fails, the second still gets the update and only the first is removed |
| Scenarios.OpenStep | server.py:47-54 | a connect whose `init` send succeeds appends the connection and sends it `init` with the current history |
| Scenarios.CloseUnregistered | server.py:76-77 | cleanup of an unregistered connection changes nothing and pushes nothing |
| Scenarios.BrokenSubscriberIsPruned | server.py:20-77 | the run of `PostWithFirstBroken`, reached from a fresh hub by two connects, and the broken subscriber's later cleanup is a no-op |

`Connect` and `GetClicks` also get their meaning from lemmas: `ConnectThenDisconnect`,
`ConnectKeepsValid` and the `ReadAfter…` lemmas. `Step` and `Run` state only how far the
history can grow; the rest of what they promise is stated by `StepGrows`,
`StepKeepsValid`, `RunPushesGrow` and `RunKeepsValid`.

## Left out

- The web framework, the server runner and the WebSocket transport (`accept`,
  `send_json`, `receive_json`), plus JSON encoding. These are I/O and library calls.
  A send is modelled only as success or failure, decided by the `failing` input.
- asyncio interleavings. In the source, other coroutines can change
  `active_connections` while `broadcast_state` iterates it across `await` points, and
  submitters can run concurrently. The model runs each handler atomically.
- Identity by `id(websocket)`, which Python may reuse after a socket is freed. Ids are
  abstract numbers here. Freshness is assumed where uniqueness matters.
- The exception taxonomy (`RuntimeError` versus other exceptions, `WebSocketDisconnect`,
  malformed JSON). Every failed send is the same failure. Every way a WebSocket
  session ends is the `Close` event, which runs the `finally` cleanup.
- A failed `init` send is covered by `Trace.Open`'s `initFails` flag: the connection
  is registered, then removed by the cleanup. The source's printed log lines are left
  out.
- The static root endpoint (server.py:107-113), the host/port configuration and
  server start-up (server.py:116-119). None of them touches the hub.
- `GET /clicks` returns the live list object inside the response; the model returns
  the history value. There is no aliasing in Dafny, and the response is serialised at
  once.
