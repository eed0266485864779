# Verified model of the Democratic AI platform core

A Dafny model of four components of the platform, with proofs of what they keep over all
their runs:

- **MCP Hub and SDK endpoint** (`core/mcp/hub_server.py`, `sdk/python/src/democratic_ai/module.py`):
  registry, capability index, routing cache, load balancer, heartbeat supervision, and the
  request/reply protocol between modules.
- **API gateway** (`api/gateway.py`): circuit breaker, result cache, and the request executor
  that composes them.
- **Billing** (`core/billing/billing_service.py`): buffered usage tracking, overage pricing and
  invoices, and the life of subscriptions, invoices and payments.
- **Authentication** (`core/auth/auth_service.py`): sessions, verification, revocation and
  refresh-token rotation.

All four are asyncio code. A stretch of code between two suspension points is one atomic step,
written as a function on values (`HubModel`, `GatewayModel`, `UsagePipeline`, `Lifecycle`,
`AuthModel`). A suspended coroutine is a value in the state: a pending send, a batch being
inserted, a half-done refresh. Events may come in any order the state allows, so the lemmas about
runs cover every interleaving. The classes (`HubServer.MCPHub`, `SdkModule.Module`,
`APIGatewayServer.APIGateway`, `BillingServer.BillingService`,
`BillingOperations.BillingDatabase`, `AuthServer.AuthService`) have the fields of the originals
and update them in place; their methods are proved to do to the abstract state exactly what the
step functions say.

| files | contents |
|---|---|
| `Prelude` | options, truthiness, sums over sequences |
| `HubModel`, `HubEffects`, `HubAnswers`, `Network` | the hub's steps, what they send and what they leave alone, and hub plus endpoints as one system |
| `Registry`, `CapabilityRouting` | load accounting, index and cache, routing against a scan of all modules |
| `Quiescence`, `Correlation`, `Liveness` | traffic dies out, replies find their requester, heartbeats |
| `Broadcasts`, `Replies` | a broadcast reaches every other module, replies tell how the request was served |
| `HubServer`, `SdkModule` | the objects |
| `Breaker`, `ResultCache`, `CacheKeys`, `GatewayModel`, `GatewayRuns`, `Gateway` | the gateway |
| `UsagePipeline`, `Pricing`, `BillingServer` | usage and pricing |
| `Lifecycle`, `BillingOperations` | subscriptions, invoices, payments |
| `AuthModel`, `Sessions`, `Rotation`, `AuthServer` | authentication |

Run `dafny verify dfyconfig.toml` to check everything.

## What the proofs found

Where the code does not do what its design suggests, the model follows the code; a lemma gives
the failing case and another says exactly when the property holds.

- A reconnect under an id still in use leaves index entries for capabilities the module no longer
  has, and they survive its disconnect. Requests for such an action then end in PROCESSING_ERROR.
  The index is exact on exactly the runs where no reconnect drops a capability (`ReachableExactIff`,
  `ReconnectLeavesStaleEntry`, `StaleEntryRaises`). An announcement does not clear the routing cache:
  index and cache both agree with the modules exactly when besides no announcement drops a cached
  action (`ReachableAgreesIff`).
- A client that polls at most a minute apart keeps an open circuit open for good: its own refusals
  count as failures (`KnockingStaysLockedOut`).
- A cached answer of one module and action is served for another of the same tenant and payload
  exactly when the two join to the same string around a colon, as "billing" with "report:delete" and
  "billing:report" with "delete" do (`ServedIffAlike`, `EqualAddressesIff`, `AnotherModulesAnswer`).
  Tenants are never mixed: their ids are UUIDs, and the payload at the end of the key is always told
  apart (`CachedForSameTenant`, `EqualKeysIff`).
- `generate_invoice` and `_calculate_usage_cost` charge the same exactly when API usage is whole or
  within quota and storage, among the metrics without an invoice line, is within quota
  (`InvoiceVersusCost`). The tiers' comments price storage overage per GB, while
  `_calculate_usage_cost`, the only function that prices storage, applies the rate per byte; the model
  follows the code.
- The stored total of an invoice can differ by a hundredth from stored subtotal plus stored tax
  (`StoredTotalCanDiffer`); `StoredTotalAddsUpIff` says exactly when it does not.
- Overlapping calls of `process_payment`, `create_subscription` and `refresh_access_token` pay twice,
  leave two active subscriptions, and redeem a token twice (`OverlappingPaymentsPayTwice`,
  `OverlappingSubscribesLeaveTwo`, `OverlappingRefreshesRedeemTwice`). Per invoice, per tenant and
  period, and per tenant, the lemmas `OnePaymentIffUpdatesTell`, `OnePaymentIffApart`,
  `OneInvoiceIffApart` and `OneActiveIffApart` say exactly which overlaps and failures do harm. A
  refresh token whose refreshes all run to their end is redeemed once exactly when none of them, the
  token being live, starts while another is under way (`RedeemedOnceIffApart`); a repetition can be
  told by the key its delete does not find (`RepeatsIffKeyGone`). A login keeps one unredeemed token
  exactly when none of its refreshes is cut short or repeated (`OneHeirIffInOrder`, `OneHeirIffApart`).
- An access token from `refresh_access_token` has no session and is never accepted
  (`RefreshedNeverAccepted`). A restart in the middle of `revoke_token` undoes the revocation
  (`RestartUndoesUnfinishedRevocation`).
- A broadcast ends at the first send that fails, and the modules after it get nothing (`SendEnds`); while
  no send fails and no module comes or goes, each other module gets it exactly once
  (`BroadcastReachesEveryOther`).
- The SDK never resolves the futures of `call_module`: replies reach the right module and are then
  dropped as unknown messages (`SdkModule.Module.HandleMessage`).

## Model

| member | source | states |
|---|---|---|
| Registry.ReachableSound | core/mcp/hub_server.py:338-383 | After every run from the empty hub, with any interleaving of connects, reconnects, drops, timeouts and failing sends: each connection object's load is the number of sends pending on it, every routing-cache value is a connected module, and every connected module is indexed under each of its capabilities |
| Registry.NoLoadAtRest | core/mcp/hub_server.py:364-383 | On every run, when no send is pending no connection object, replaced ones included, carries load |
| Registry.SelectFewestPending | core/mcp/hub_server.py:338-356 | On every run, the load balancer finds an online candidate with the fewest pending sends, and none exactly when no candidate is online |
| HubEffects.SelectLeastLoaded | core/mcp/hub_server.py:346-356 | The selection loop finds the first online candidate of least load, and nothing exactly when none is online |
| HubAnswers.DirectRouting | core/mcp/hub_server.py:274-280 | On every hub: handling a message with a target leaves exactly that message pending, on the object registered under the target, failures to be reported to the sender; for an unknown target the MODULE_NOT_FOUND report, or nothing for an unknown sender |
| HubAnswers.ActionRouting | core/mcp/hub_server.py:282-301 | On every hub: a message with an action goes to the cached module if it is connected, else to the first least-loaded online candidate, which is cached; NO_CAPABILITY exactly without candidates, PROCESSING_ERROR for an unknown one or when all are offline |
| HubAnswers.BroadcastStart | core/mcp/hub_server.py:303-307 | A message with neither goes to some other module first, with all the rest still to do, and nowhere exactly when there is no other module |
| HubAnswers.OtherAnswers | core/mcp/hub_server.py:231-254 | Heartbeats and queries are answered on the sender's object, announcements and streams not at all; malformed messages are reported as INVALID_MESSAGE, other types as PROCESSING_ERROR |
| HubAnswers.HandlingEffects | core/mcp/hub_server.py:226-263 | Handling a message changes exactly this: the sender's object counts a request and a heartbeat, the object of the pending send one load, and an announcement its capabilities |
| HubAnswers.SendEnds | core/mcp/hub_server.py:303-332 | A failing forward is reported to its sender as PROCESSING_ERROR; a broadcast goes on to a module still owed the message while the registry is the same, and a failing send or a change of its size ends it |
| HubAnswers.SendEndEffects | core/mcp/hub_server.py:364-383 | The end of a send takes one from the load of the object it was started on and adds an error exactly on failure; the next send loads its own |
| Registry.ConnectExactIff | core/mcp/hub_server.py:183-188 | A connect keeps the index the exact inverse of the capability sets if and only if it is no reconnect that drops a capability |
| Registry.AnnounceHonestIff | core/mcp/hub_server.py:416-433 | An announcement keeps every cached module announcing the action it is cached for if and only if it keeps the actions cached for the sender |
| Registry.AnnouncingEntry | core/mcp/hub_server.py:416-433 | What an announcement does to each entry of the index and of the scan of all modules |
| Registry.ConnectingEntry | core/mcp/hub_server.py:175-188 | What a connect or reconnect does to each entry of the index and of the scan |
| Registry.UnregisterEntry | core/mcp/hub_server.py:484-501 | What unregistering does to each entry of the index and of the scan |
| Registry.SweepingIndex | core/mcp/hub_server.py:538-549 | A cleanup pass keeps cache, coverage and exactness of the index |
| CapabilityRouting.StepAgreesIff | core/mcp/hub_server.py:416-433 | For every step: index and cache still agree with the modules afterwards if and only if the step takes no capability back |
| CapabilityRouting.StepExactIff | core/mcp/hub_server.py:183-188 | For every step: the index is still exact afterwards if and only if the step is no reconnect that drops a capability |
| CapabilityRouting.ReachableExactIff | core/mcp/hub_server.py:416-433 | From the empty hub, the index is the exact inverse of the capability sets throughout exactly the runs where no reconnect drops a capability; announcements, withdrawals included, disconnects and cleanups never spoil it |
| CapabilityRouting.ReachableAgreesIff | core/mcp/hub_server.py:183-188 | From the empty hub, index and cache agree with the modules throughout exactly the runs that take nothing back |
| CapabilityRouting.CapabilityRoutingRefinesScan | core/mcp/hub_server.py:282-301 | On every run that takes nothing back, a request for an action goes to a connected module that announces it, the cached one or a least-loaded online one; NO_CAPABILITY is sent exactly when no connected module announces it |
| CapabilityRouting.NoCapabilityMeansNobody | core/mcp/hub_server.py:290-301 | On every run whatever, NO_CAPABILITY is only sent when no connected module announces the action |
| CapabilityRouting.ReconnectLeavesStaleEntry | core/mcp/hub_server.py:183-188 | Connect, reconnect without the capability, disconnect: the index still offers the departed module |
| CapabilityRouting.StaleEntryRaises | core/mcp/hub_server.py:341 | With such an entry every uncached request for the action gets PROCESSING_ERROR |
| Quiescence.TrafficDiesOut | core/mcp/hub_server.py:226-307 | With at most n modules connected, hub and endpoint steps of any run plus the weight of the traffic left are bounded by the weight of the traffic at the start and of what applications emit; broadcasts, error reports, failing sends and reconnects included |
| Quiescence.FinishCost | core/mcp/hub_server.py:358-397 | A pending send's weight exceeds what it delivers and what the hub does next, be it an error report or the rest of a broadcast |
| Quiescence.ReceiveCost | core/mcp/hub_server.py:226-307 | A message's weight exceeds what handling it leaves pending |
| Quiescence.ReplyCost | sdk/python/src/democratic_ai/module.py:264-335 | A delivered message's weight exceeds that of the endpoint's answer |
| Quiescence.TrafficNeverStuck | core/mcp/hub_server.py:226-307 | While any message is in transit some hub or endpoint step can be taken, so traffic ends only in quiet |
| Correlation.RepliesReachTheirRequester | sdk/python/src/democratic_ai/module.py:304-313 | On every run whose applications use the socket as call_module and emit_event do, a correlated RESPONSE or ERROR is only ever delivered to the module that issued the correlation id |
| Correlation.RequestsServedAtMostOnce | core/mcp/hub_server.py:274-301 | On those runs a request naming a target or an action is delivered to at most one module and at most one reply to it is delivered |
| Network.MessagesMove | core/mcp/hub_server.py:364-383 | In every step, a message is delivered exactly by a send that succeeds, to the module of the object the send was started on; what is pending or on its way is otherwise as it was |
| Broadcasts.BroadcastReachesEveryOther | core/mcp/hub_server.py:303-307 | On every run, between two points with no send of a broadcast message pending, while no module comes or goes and no send of it fails: each connected module is delivered the message exactly as often as the hub reads it from another module |
| Replies.RepliesTellTheOutcome | sdk/python/src/democratic_ai/module.py:300-335 | On every run whose applications use the socket as call_module and emit_event do, a delivered correlated RESPONSE stems from serving a request under that id that was replied to, a delivered ERROR from one that failed |
| Replies.CallComesBack | sdk/python/src/democratic_ai/module.py:277-335 | From every state, a call between two connected modules, forwarded, served and sent back, is delivered to the callee and then answered to the caller under its correlation id, by RESPONSE exactly when served well |
| Liveness.OnlineIffHeardInTime | core/mcp/hub_server.py:505-516 | A connection that keeps its socket is online after a run exactly when no monitor pass came more than the timeout after its last valid message, the connect counting as the first; then it is also still registered |
| Liveness.ObjectOnlineIff | core/mcp/hub_server.py:505-516 | On every run after a connect, reconnects and disconnects under the id included: the connection object is online exactly when no monitor pass found it registered and silent for longer than the timeout |
| Liveness.OfflineForever | core/mcp/hub_server.py:514-516 | Offline is absorbing for a connection object over every run, whatever connects or disconnects under its id |
| Liveness.SweepRemovesIff | core/mcp/hub_server.py:538-549 | A cleanup pass removes a module exactly when it is offline and silent for over thirty minutes, and changes no other registration |
| HubServer.MCPHub.SendToModule | core/mcp/hub_server.py:358-368 | Sending up to the await raises exactly for an unknown id, and otherwise adds one to the load of the object registered now |
| HubServer.MCPHub.SendErrorTo | core/mcp/hub_server.py:385-397 | An error report never raises; to an unknown id nothing is sent |
| HubServer.MCPHub.Release | core/mcp/hub_server.py:378-383 | The end of a send takes one from the load, and counts an error exactly on failure, on the object the send was started on |
| HubServer.MCPHub.Resume | core/mcp/hub_server.py:303-307 | A failing send is reported to the sender of the message as PROCESSING_ERROR, unless it was an error report itself; a successful forward ends there, a successful broadcast send takes the next turn |
| HubServer.MCPHub.BroadcastOn | core/mcp/hub_server.py:303-307 | One turn of the loop over the live modules dictionary: the next module gets the message with the others still to come, or the iterator stops or raises |
| HubServer.MCPHub.RouteMessage | core/mcp/hub_server.py:265-332 | A message with a target goes to the object registered under it, and to nobody else, or comes back as MODULE_NOT_FOUND; one with an action goes where the cache or the selection says; one with neither starts a broadcast |
| HubServer.MCPHub.RouteByAction | core/mcp/hub_server.py:282-301 | The cached module if it is connected, else NO_CAPABILITY without candidates, else a candidate, which is cached, or an exception |
| HubServer.MCPHub.RouteToSelected | core/mcp/hub_server.py:296-298 | The selected module is cached and sent to, or the selection raises and nothing changes |
| HubServer.MCPHub.SelectModule | core/mcp/hub_server.py:338-356 | The filter and the loop together find the model's selection; an unknown id raises |
| HubServer.SelectOnlineOnly | core/mcp/hub_server.py:341 | Filtering the online modules first does not change which module is found |
| HubServer.MCPHub.LeastLoadedOf | core/mcp/hub_server.py:346-356 | The loop over the online modules finds the model's selection |
| HubServer.MCPHub.HandleMessage | core/mcp/hub_server.py:226-263 | What each kind of message leads to: forward, report, acknowledgement or nothing; a malformed one is reported as INVALID_MESSAGE and an exception as PROCESSING_ERROR |
| HubServer.MCPHub.DispatchMessage | core/mcp/hub_server.py:242-254 | The dispatch on the message type has the effect of the model's Dispatch |
| HubServer.MCPHub.TouchModule | core/mcp/hub_server.py:237-240 | A valid message counts as a request and a heartbeat of the object registered now |
| HubServer.MCPHub.Register | core/mcp/hub_server.py:175-188 | A new object takes over the id; the index only gains entries |
| HubServer.MCPHub.AddToIndex | core/mcp/hub_server.py:187-188 | The loop adds the id under exactly the given capabilities |
| HubServer.MCPHub.DiscardFromIndex | core/mcp/hub_server.py:425-428 | The loop removes the id under exactly the given capabilities that have an entry |
| HubServer.MCPHub.HandleCapabilityAnnounce | core/mcp/hub_server.py:416-435 | The module's capabilities are replaced, in the object and in the index; the cache stays |
| HubServer.MCPHub.UnregisterModule | core/mcp/hub_server.py:484-503 | The module leaves registry and cache, and the index under its current capabilities |
| HubServer.MCPHub.HeartbeatMonitor | core/mcp/hub_server.py:505-517 | One pass, in any order, marks exactly the registered objects past the timeout offline |
| HubServer.MCPHub.CleanupStaleConnections | core/mcp/hub_server.py:538-550 | One pass has the effect of the model's Sweeping |
| SdkModule.Module.HandleMessage | sdk/python/src/democratic_ai/module.py:264-275 | What the endpoint answers and counts for each kind of message; no kind touches the waiting calls |
| SdkModule.Module.HandleRequest | sdk/python/src/democratic_ai/module.py:277-335 | Exactly a request for an action the module has, whose handler returns, is answered by RESPONSE, every other by ERROR and counted as an error; the answer goes from this module to the requester under the same correlation id |
| SdkModule.Module.CallModule | sdk/python/src/democratic_ai/module.py:409-429 | The request carries the caller's id and a fresh correlation id, which is the discipline the correlation lemmas ask for |
| SdkModule.Module.CallTimedOut | sdk/python/src/democratic_ai/module.py:437-440 | The end of a call removes its waiting entry and no other |
| Breaker.ClosedIffFewFailures | api/gateway.py:650-698 | A breaker is closed exactly when at most five failures were recorded since its creation or last closing |
| Breaker.CountBegins | api/gateway.py:650-698 | Every history has such a starting point |
| Breaker.FailuresAreHistory | api/gateway.py:683-698 | The failure count is the number of failures since that point |
| Breaker.ClosesIff | api/gateway.py:673-681 | A breaker closes exactly at a success while half-open that is at least the sixth success ever recorded |
| Breaker.HalfOpenIff | api/gateway.py:663-669 | A breaker is half-open exactly when a check over a minute after the last failure found it open and nothing has failed or closed it since |
| Breaker.CountersAreHistory | api/gateway.py:650-698 | Successes and last failure are those of the history; more than five failures exactly when not closed |
| ResultCache.SortByTimeFacts | api/gateway.py:634-637 | Sorting the keys by timestamp permutes them and puts them in ascending order |
| ResultCache.NewestLast | api/gateway.py:634-637 | The sort is stable at its end: the last inserted key, if none is newer, comes out last |
| ResultCache.EvictFacts | api/gateway.py:632-640 | The cleaning pass leaves at most 1000 entries, all unchanged, and drops entries only to 901 that are all at least as recent |
| ResultCache.EntriesAreLatest | api/gateway.py:625-640 | Every cached entry is the latest result ever stored under its key |
| ResultCache.HitIsLatest | api/gateway.py:617-623 | A lookup answers v exactly when the key has not been evicted, v is the latest result stored under it, and that is less than the time to live ago |
| ResultCache.JustStoredStays | api/gateway.py:625-640 | With a clock that never goes back, a just-stored entry survives its own cleaning pass |
| ResultCache.MissingMeansOvertaken | api/gateway.py:632-640 | A stored result is missing only when at least 901 other keys have a result as recent |
| CacheKeys.EqualKeysIff | api/gateway.py:603-615 | For all UUID tenants and JSON payloads: two requests have the same key exactly when tenant and payload are the same and module id, a colon and action join to the same string |
| CacheKeys.NoDumpWithinADump | api/gateway.py:613 | No JSON text of a dict ends in another one right after a colon, which is why the payload is always told apart |
| CacheKeys.EqualAddressesIff | api/gateway.py:610-612 | Two pairs of module and action join to the same string exactly when they are the same, or one module id is the other followed by a colon and more, and the other's action starts with that more and a colon |
| CacheKeys.KeyIdentifiesRequest | api/gateway.py:603-615 | So when module ids contain no colon, equal keys mean the same tenant, module (none and empty alike), action and payload, whatever the action contains |
| CacheKeys.SharedKeyIff | api/gateway.py:609-615 | Were tenant ids arbitrary text, two of them could share a key exactly when one followed by a colon is a prefix of the other |
| CacheKeys.Collision | api/gateway.py:609-615 | For such texts, the shifted module and action give the same key for every payload |
| GatewayRuns.BreakerFollowsHistory | api/gateway.py:342-361 | On every run of arriving requests and returning calls, a service's breaker is the one its history of checks, successes and failures gives |
| GatewayRuns.RefusedIff | api/gateway.py:357-361 | After every run a request is refused exactly when the limiter does not allow it, or the circuit is open and its last failure or refusal lies at most sixty seconds back |
| GatewayRuns.KnockingStaysLockedOut | api/gateway.py:430-434 | Once a circuit is open, if no request comes more than a minute after the last refusal or failure, all are refused and it stays open, whatever calls return successfully meanwhile |
| GatewayRuns.OpenIsOpenSince | api/gateway.py:683-698 | Every open circuit of a reachable gateway meets the premise of the lockout |
| GatewayRuns.CachedForSameTenant | api/gateway.py:363-367 | On every run a cached answer was made for a request of the same tenant with the same payload, whose module and action join to the same string |
| GatewayRuns.ServedIffAlike | api/gateway.py:363-367 | Some run serves one request an answer made for another exactly when they have the same tenant and payload, their modules and actions join to the same string, and the answer was not streamed |
| GatewayRuns.AnotherModulesAnswer | api/gateway.py:609-615 | Module "billing" with action "report:delete" answers for module "billing:report" with action "delete" of the same tenant |
| GatewayRuns.SameKeyIsServed | api/gateway.py:422-423 | The run: a request arrives, is answered, and any request with the same key is then served its answer |
| GatewayRuns.CachedIsLatest | api/gateway.py:363-367 | After every run a request is answered v from the cache exactly when limiter and circuit let it through, its key is not evicted, v is the latest stored under it, and that is less than the time to live ago |
| GatewayRuns.JustAnsweredIsServed | api/gateway.py:617-640 | With a clock that never goes back, from every state the invariant allows, an answer that has just come back unstreamed is given to every alike request of the following time to live that limiter and circuit let through |
| GatewayModel.StepInv | api/gateway.py:333-440 | Every step keeps the cache the one its log of stores gives, and each entry the answer to a recorded request with that key |
| GatewayModel.BeginEffects | api/gateway.py:342-394 | The first stretch of a request touches only the breaker of its module id, or else of its action, and the waiting calls; a refusal is one more failure there, now, and anything else counts neither way; an unallowed request is refused and an allowed one on a circuit that is not open never is |
| GatewayModel.FailureEffects | api/gateway.py:430-440 | A call that raised is one more failure of its service, now, and changes nothing else |
| GatewayModel.AnswerEffects | api/gateway.py:394-429 | An answered call is stored under its key with its time and counts as one more success of its service; a streamed one leaves no trace |
| APIGatewayServer.APIGateway.IsCircuitOpen | api/gateway.py:650-671 | The answer and the breaker afterwards |
| APIGatewayServer.APIGateway.RecordSuccess | api/gateway.py:673-681 | The breaker after a success; an unknown service gets none |
| APIGatewayServer.APIGateway.RecordFailure | api/gateway.py:683-698 | The breaker after a failure; an unknown service gets a fresh one first |
| APIGatewayServer.APIGateway.GetCachedResult | api/gateway.py:617-623 | Answers exactly when the key is there and its age below the time to live, with the result stored |
| APIGatewayServer.APIGateway.CacheResult | api/gateway.py:625-640 | The result is stored with its time, an existing key keeping its place; an overfull cache is cleaned |
| APIGatewayServer.APIGateway.CleanOldEntries | api/gateway.py:632-640 | The deletion loop drops exactly the hundred oldest entries of an overfull cache |
| APIGatewayServer.APIGateway.ExecuteBegin | api/gateway.py:342-394 | The first stretch of a request: an exceeded limit and a barring circuit refuse it and are recorded as failures; else it is answered from the cache or waits for the hub |
| APIGatewayServer.APIGateway.ExecuteEnd | api/gateway.py:394-440 | The second stretch: an answer is cached and recorded as a success unless streamed, a failure recorded |
| UsagePipeline.EventsConserved | core/billing/billing_service.py:489-513 | At every point of every interleaving the arrivals are the batches taken, in order, followed by the buffer; batches hold between one and buffer_size events; the buffer stays below buffer_size |
| UsagePipeline.CounterAndLogBalance | core/billing/billing_service.py:474-528 | At every point, for each tenant and metric: counters over all months, plus calls under way or cut short before the counter, equal batches persisted, in flight and lost, plus the buffer; a call whose increment succeeds and whose expiry raises is counted once |
| UsagePipeline.CounterAgreesWithLog | core/billing/billing_service.py:499-503 | With no failed insert, no call midway and none cut short before counting, counters equal persisted plus periodically flushed in flight plus buffered |
| UsagePipeline.CounterIsMonthsUsage | core/billing/billing_service.py:499-503 | On every run the counter of each tenant, metric and month is the sum of the values of the calls of that tenant and metric whose increment took place in that month |
| UsagePipeline.AbandonedIs | core/billing/billing_service.py:489-503 | On every run the usage of calls cut short before the counter is that of failed increments and of the calls whose batch was lost |
| UsagePipeline.BatchFateIff | core/billing/billing_service.py:505-528 | On every run a batch is persisted exactly when its insert returned and lost exactly when it raised |
| UsagePipeline.BatchesByStatus | core/billing/billing_service.py:505-528 | The usage in all batches is that of the persisted, the in-flight and the lost ones |
| BillingServer.BillingService.TrackUsage | core/billing/billing_service.py:474-497 | The event goes to the end of the buffer; a full buffer becomes a batch of exactly buffer_size events to insert, and leaves none behind |
| BillingServer.BillingService.FlushUsageBuffer | core/billing/billing_service.py:505-511 | The batch and the remaining buffer together are the old buffer, in order |
| BillingServer.BillingService.AggregatorTick | core/billing/billing_service.py:833-835 | The periodic flush takes the whole buffer, if there is anything in it, and leaves it empty |
| BillingServer.BillingService.UpdateUsageCounter | core/billing/billing_service.py:499-503 | The counter of tenant, metric and this month grows by the value exactly when the increment succeeds, even if setting the expiry then raises; no other counter changes |
| BillingServer.BillingService.CalculateUsageCost | core/billing/billing_service.py:587-608 | The loop over the rows, in any order, finds the cost of the usage, in which each row has its price: its overage at the metric's rate; no tier costs nothing |
| Pricing.SumChargesIsCost | core/billing/billing_service.py:597-606 | Adding up overage charges row by row gives the cost of the usage whatever the order |
| Pricing.CostZeroIffWithinQuota | core/billing/billing_service.py:600-606 | Cost is never negative, and zero exactly when every priced metric is within its quota |
| Pricing.MarginalPrice | core/billing/billing_service.py:600-606 | Above its quota a unit of a metric costs the metric's rate, below it nothing, and a metric without a rate never costs anything |
| Pricing.UsagePrice | core/billing/billing_service.py:600-606 | Each metric of the usage adds its overage at its rate to the cost of the rest |
| Pricing.UnitPrices | core/billing/billing_service.py:336-427 | For each plan: its quota of API calls and of compute time is free and one unit more costs the listed rate; the free plan costs nothing |
| Pricing.BaseFees | core/billing/billing_service.py:336-427 | For each plan: the subtotal of a period without usage is the listed monthly price, or a twelfth of the listed yearly one |
| Pricing.TruncCharge | core/billing/billing_service.py:554 | Truncating API calls loses part of the charge exactly when a fraction lies above the quota |
| Pricing.InvoiceVersusCost | core/billing/billing_service.py:642-678 | An invoice's overage never exceeds the usage cost, and equals it exactly when API usage is whole or within quota and every priced metric without a line is within quota |
| Pricing.InvoiceMarginalPrice | core/billing/billing_service.py:642-675 | On an invoice above quota a whole API call and a unit of compute time cost their rates, and no other metric costs anything |
| Pricing.BaseFeeAlone | core/billing/billing_service.py:625-640 | Without usage an invoice of a paid plan is its monthly price, or for any longer period a twelfth of its yearly price; of a free plan nothing |
| Pricing.LinesItemised | core/billing/billing_service.py:625-675 | The lines are exactly the right ones: no line wrong, missing or there twice |
| BillingServer.BillingService.GenerateInvoice | core/billing/billing_service.py:610-700 | Raises exactly without a subscription or a tier; the lines are complete and right, the subtotal is their sum and at most base fee plus usage cost, with API calls and compute time at their rates; tax is a tenth; the stored total is within a hundredth of stored subtotal plus stored tax |
| BillingServer.BillingService.InvoiceLines | core/billing/billing_service.py:625-675 | The lines are exactly the base fee of a paid plan, monthly or a twelfth of the year, and the positive overages of whole API calls and compute time at their rates, each once; they make up the subtotal |
| Pricing.StoredTotalWithinAHundredth | core/billing/billing_service.py:285-287 | For every subtotal the three separately rounded amounts fit within a hundredth |
| Pricing.StoredTotalAddsUpIff | core/billing/billing_service.py:285-287 | The stored total is the sum of stored subtotal and stored tax exactly when the two columns together lose at least minus half and less than half a hundredth |
| Pricing.WholeHundredthsAddUp | core/billing/billing_service.py:678-680 | It always is for a subtotal in whole hundredths |
| Pricing.StoredTotalCanDiffer | core/billing/billing_service.py:285-287 | An invoice where they differ by one |
| Pricing.SummaryIsUsage | core/billing/billing_service.py:536-544 | The grouped query gives each metric's usage in the period, and zero for metrics without a row |
| Pricing.UsageOfEvent | core/billing/billing_service.py:537-542 | One event counts with its value for its tenant and metric, from the start of the period to just before its end |
| Pricing.UsageOfBoth | core/billing/billing_service.py:537-542 | The usage of two logs together is the sum of theirs |
| Pricing.UsageAdds | core/billing/billing_service.py:537-542 | Usage over adjacent periods adds up, for any log |
| Pricing.CostMonotone | core/billing/billing_service.py:597-606 | More usage of any metric never costs less |
| Pricing.CostSuperadditive | core/billing/billing_service.py:587-608 | Costs of two adjacent periods add up to at most the cost of the whole |
| Pricing.SplittingNeverDearer | core/billing/billing_service.py:532-608 | Any finite split of a period costs at most what the whole period costs |
| Pricing.TiersPriced | core/billing/billing_service.py:336-427 | All four tiers have positive rates and no negative fee, so the lemmas apply to them |
| Lifecycle.OneActiveIffApart | core/billing/billing_service.py:433-455 | On every run a tenant has at most one active subscription if no subscribe call of the tenant starts while another of the same tenant is under way, and, once all its calls are done without failing, only if; what other tenants and operations do makes no difference |
| Lifecycle.OneInvoiceIffApart | core/billing/billing_service.py:887-912 | However often the generator runs, a tenant has at most one invoice per period start if no generation for the two starts while one is under way or, unchecked, when the invoice exists, and, once all are done without failing, only if |
| Lifecycle.OnePaymentIffUpdatesTell | core/billing/billing_service.py:735-755 | On every run, overlaps and database failures included: with no payment of it under way an invoice has exactly one payment row if PAID and none otherwise, if and only if no status update of it failed or found it PAID already; every row has the stored total and tenant |
| Lifecycle.OnePaymentIffApart | core/billing/billing_service.py:713-755 | When no status update of the invoice fails, it is enough that no payment of it is accepted while another is under way, and, when no row fails to be written either, also necessary |
| Lifecycle.PaidIsForever | core/billing/billing_service.py:750-755 | On every run, overlapping or not, PAID never reverts and tenant, period and total of an invoice never change |
| Lifecycle.InvoicesAsBilled | core/billing/billing_service.py:610-700 | On every run every invoice is one that was asked for: with that tenant, that period and the total priced for it |
| Lifecycle.OverlappingPaymentsPayTwice | core/billing/billing_service.py:713-755 | From any state with no operation under way, two overlapping payments of a pending invoice add two payment rows |
| Lifecycle.OverlappingSubscribesLeaveTwo | core/billing/billing_service.py:433-455 | Two overlapping subscribe calls leave two active subscriptions |
| BillingOperations.BillingDatabase.CreateSubscription | core/billing/billing_service.py:429-472 | Exactly the tenant's active subscription is deactivated and exactly one new active one appended |
| BillingOperations.BillingDatabase.ProcessPayment | core/billing/billing_service.py:713-775 | Succeeds exactly for a known, unpaid invoice that Stripe accepts; adds one payment row and marks that invoice only |
| BillingOperations.BillingDatabase.ProcessAutoPayments | core/billing/billing_service.py:930-958 | The join may yield an invoice several times: each is paid at most once, and exactly the accepted ones are paid |
| BillingOperations.BillingDatabase.GenerateMonthlyInvoices | core/billing/billing_service.py:887-915 | Every listed tenant is billed for the period afterwards unless pricing raised; every new invoice is a pending one of a listed tenant with the total priced for it; a second pass adds nothing |
| BillingOperations.BillingDatabase.GenerateIfMissing | core/billing/billing_service.py:903-912 | An invoice is added exactly when the tenant has none for the period |
| Sessions.VerifyIff | core/auth/auth_service.py:533-570 | After every run verify_token accepts exactly the signed, unexpired tokens whose session was created, whose revocation has not completed, and which are not blacklisted in memory; cached or not makes no difference |
| Sessions.VerifyIffUnrevoked | core/auth/auth_service.py:533-570 | When no revocation of the token is under way and none met a failing store, restarts or not, verify_token accepts it exactly if it is unexpired and has a session, and its revocation has not completed |
| Sessions.RevokedForGood | core/auth/auth_service.py:610-631 | After a completed revocation the token is refused for good, restarts included |
| Sessions.RestartUndoesUnfinishedRevocation | core/auth/auth_service.py:610-631 | From any run's end: a restart right after the blacklisting makes the token accepted again |
| Sessions.RefreshedNeverAccepted | core/auth/auth_service.py:572-608 | On every run, no access token handed out by a refresh is ever accepted |
| Rotation.RedeemedAtMostOnce | core/auth/auth_service.py:572-608 | On every run, restarts and failing stores anywhere, a refresh token is redeemed at most once if no refresh of it, while live, starts while another of the same token is under way |
| Rotation.RedeemedOnceIffApart | core/auth/auth_service.py:572-608 | When no refresh of the token was cut short and none is under way, it was redeemed at most once if and only if no refresh of it, while live, started while another was under way; expiry makes no difference |
| Rotation.RedeemedOnceIffKeyFound | core/auth/auth_service.py:599-600 | On every run, overlapping or not, a token Redis has not let expire is redeemed at most once exactly when every delete of its key found the key |
| Rotation.OneHeirIffInOrder | core/auth/auth_service.py:572-608 | On every run, a login with no refresh half done has at least one unredeemed refresh token, and exactly one if and only if no refresh of that login was cut short between its two writes or repeated; its live tokens are the unredeemed ones that have not expired |
| Rotation.OneHeirIffApart | core/auth/auth_service.py:572-608 | When no refresh of the login was cut short and none is under way, it has exactly one unredeemed token if and only if no live token of the login was refreshed while a refresh of that token was under way |
| Rotation.PairInMidRefresh | core/auth/auth_service.py:596-600 | If besides no refreshes of one of its tokens overlap, a login has exactly the old token and its successor unredeemed in the middle of a refresh |
| Rotation.RepeatsIffKeyGone | core/auth/auth_service.py:600 | On every run, a refresh about to delete its old key repeats an earlier one exactly when that key is gone already, expiry aside |
| Rotation.OverlappingRefreshesRedeemTwice | core/auth/auth_service.py:572-608 | From any state with no coroutine under way, two overlapping refreshes of a live token are both answered and leave two live successors |
| AuthServer.AuthService.Restarted | core/auth/auth_service.py:181-184 | A restart empties session cache and blacklist, loses suspended coroutines and keeps what the stores hold |
| AuthServer.AuthService.VerifyToken | core/auth/auth_service.py:533-570 | Accepts exactly the tokens the model accepts, and otherwise says which check failed first: revoked, then signature, then expiry, then session |
| AuthServer.AuthService.Authenticate | core/auth/auth_service.py:387-463 | Answers exactly when credentials, both stores and the closing updates are good; the token is accepted until it expires exactly when the session was created, even if the answer is then withheld by a failing update |
| AuthServer.AuthService.RevokeToken | core/auth/auth_service.py:610-631 | The token is refused from now on even when a store fails, recorded as revoked when none does; no other token is affected |
| AuthServer.AuthService.RefreshAccessToken | core/auth/auth_service.py:572-608 | A live refresh token is exchanged for a successor; no access token's acceptance changes, and the new one is not accepted |
| AuthServer.AuthService.InsertSession | core/auth/auth_service.py:506-515 | The session row: active, expiring jwt_expiry after the insert |
| AuthServer.AuthService.DeactivateSession | core/auth/auth_service.py:626-631 | The row's deactivation, everything else as it was |
| AuthServer.AuthService.StoreSuccessor | core/auth/auth_service.py:580-597 | The successor's key is added to the live ones |
| AuthServer.AuthService.DeleteRefreshToken | core/auth/auth_service.py:599-600 | The old key is taken from the live ones |

## Left out

- Liveness.OnlineIffHeardInTime: is about a connection that keeps its socket; a handler of an older connection under the same id that closes unregisters the newer one. `ObjectOnlineIff` covers those runs, for the connection object.
- Lifecycle.OneActiveIffApart: the "only if" half is about tenants none of whose calls a database failure ended in the middle; a failed call may leave an overlap without effect. `OneInvoiceIffApart` and `OnePaymentIffApart` likewise.
- Rotation.RedeemedOnceIffKeyFound: is about tokens that did not expire in Redis, since a delete cannot tell an expired key from one deleted before.
- Rotation.RedeemedOnceIffApart: the "only if" half is about tokens none of whose refreshes was cut short by a restart or a failing store; such a refresh may make an overlap harmless. `OneHeirIffApart` likewise.
- GatewayRuns.ServedIffAlike: tenant ids are UUID text by their type, as they are read from a UUID column (`core/auth/auth_service.py:217`) and `check_rate_limit` raises for anything that is no UUID; payloads have the few properties of the JSON text of a dict that the key relies on.
- AuthServer.AuthService.StoreSuccessor: the lookup of the user and the write of the successor are one step, and nothing else in the model depends on the point between them.
- AuthServer.AuthService.VerifyToken: is one step; the database query in it may see a later state in the original.
- A store operation that raises is taken to have had no effect: a commit, a Redis write or a delete that takes effect and then raises is not covered in `Lifecycle`, `AuthModel` and `UsagePipeline`, except for the expiry after a counter increment.
- Time is a real number read from one clock per component; time zones, key expiry of counters and the float conversions of line items are not modelled, and money and usage are exact until a DECIMAL(10,2) column rounds them.
- Messages between hub and modules may overtake one another in the model, which covers the ordered sockets of the original.
- Iterating over the live modules dictionary while it changes but keeps its size is modelled as any choice among the connected modules the iterator might make.
- Messages are reduced to the fields that routing reads; a frame that is not JSON, or not an object, is answered by an error report of the connection handler, which is not part of the model.
- The connection handshake, authentication of modules, the gRPC and HTTP/3 protocols, stream managers, the message queue that nothing fills, metrics and logging.
- Message handlers of modules are taken to emit nothing on their own besides the reply; what applications emit is an event of its own.
- `MCPHub` has no `route` method; the gateway's call to it is an outcome chosen freely, and so are Stripe, Redis and PostgreSQL failures.
- `check_rate_limit` reads a key that nothing writes and is reduced to its answer; the gateway's blacklist lookup, HTTP routes, middleware and the relay of streams.
- Yearly and quarterly subscriptions are never invoiced by the monthly generator; nothing in the model adds that.
- Daily aggregation, database schema, API keys, permissions, tenants, users and the audit log.
- Hash collisions and the internals of bcrypt and JWT: a token is its identity, its expiry and whether the signature is good; generated tokens are new and unguessable.
