# Verified model of the game-server manager

The repository is a manager for game servers on several machines: a *master* with a database, a websocket hub and a
browser client, and an *agent* per machine that drives Docker and speaks RCON to the games.  This Dafny project models
the parts that hold state, interleave or do binary work, and proves what they keep.  `dafny verify dfyconfig.toml` checks
all of it.

| module | models |
|---|---|
| `Rcon` | the RCON client: frames of the Source RCON Protocol over a TCP stream that delivers bytes in any chunks |
| `Hub`, `HubSystem`, `HubSafety`, `HubHistory`, `HubEvents`, `HubTable`, `HubReplacement`, `HubApproval` | the hub's tables, and the hub goroutine, the read and write goroutines of every connection, senders and approvals as one transition system |
| `Outbox`, `AgentQueue` | a bounded channel and the writer that drains it, on the master and on the agent |
| `Windows`, `Metrics` | the 30-element metrics windows over Go slices with shared backing arrays, and the browser's copy |
| `Environment`, `ServerConfig`, `Ports`, `Decimal` | server rows and configuration entries, the layered environment of a start, the port expansion |
| `Lifecycle`, `LifecycleCausality`, `LifecycleAnswers`, `LifecycleAgreement`, `LifecycleStops`, `LifecycleMoves`, `LifecyclePairs`, `LifecycleOverlap` | starting, stopping and deleting servers across table, messages in flight, agent goroutines and Docker |
| `LogStreams` | the agent's table of log streams |
| `Seeding`, `SeedingTwice` | writing the registered games into the database at every boot |
| `Escape` | the browser's HTML escaper |
| `Columns`, `Options` | column types that tables share; `Option` and map lookup |

How the code is rendered:

- Objects that the code updates in place are classes (`Hub.Hub`, `AgentQueue.Agent`, `Metrics.History`, `Metrics.Client`,
  `Rcon.Conn`, `ServerConfig.ServerDb`, `Seeding.GameDb`, `LogStreams.DockerManager`); the loops of the code are loops.
  Their methods are proved against functions on values, and the lemmas speak about those.
- Where the code's point is that goroutines interleave, the model is a transition system: `Step` does one atomic action (a
  critical section, a channel operation, one SQL statement, one Docker call), a step that is not possible changes nothing,
  and `Exec(events)` is the state after any sequence of events.  A theorem about `Exec(events)` for all `events` is a
  theorem about every interleaving.  `HubEvents`, `HubTable` and `LifecycleAnswers` say what the state is in terms of the
  events alone: who was sent what, what was written, who was approved with which token, which answer a goroutine gives.
- `Metrics` treats Go's `append` as the language defines it: in place when the capacity allows, otherwise into a new array
  whose capacity is not known.
- Integer width is explicit where it matters: `Rcon.Int32`, `Environment.Add` (64 bits), the INTEGER and VARCHAR columns.
- SQL statements are atomic operations on tables with the constraints that `master/db.go` declares.  Maps that Go ranges
  over are visited in an arbitrary order; query results without ORDER BY come in an arbitrary order.

Where the code falls short of what one would expect, the model follows the code and a lemma says so:

- A connection that was replaced by a newer one of the same name takes the newer one out of the registry when it
  unregisters.  The newer one's channel then stays open unless yet another connection of that name is registered when it
  unregisters (`HubHistory.StaleUnregistration`); `HubReplacement.ReplacedRun` is a run that leaves it open.
- RCON replies are paired by position, not by id: a refused password is reported if and only if the refusal is the first
  packet the server sends (`Rcon.RefusalReported`).
- `rconSend` writes bodies of any length; `rconRead` takes exactly those up to 4086 bytes (`Rcon.ParseEncode`).
- Container names are not unique; `ServerConfig.ContainerNamesCollide` says which names collide.
- Two commands for one server sent without waiting in between can leave a wrong row for good, with nothing lost and nothing
  failing, unless one of them is a delete command or both are stop commands (`LifecyclePairs.PairAgreesIff`, from every state
  of an orderly run; `LifecycleOverlap.OverlapDisagrees` is a run from the start).  The handlers do not check what is under
  way.
- Deleting a server drops the row whether or not the agent heard of it, and before the agent has acted on it.  A server created
  later under the same container name can end up with a wrong row, at once (`LifecycleOverlap.ReuseDisagrees`) or when the late
  delete command removes its container (`LifecycleOverlap.LateDeleteDisagrees`).  When the agent is done with the former
  holders of the name, this cannot happen if and only if none of their commands is on its way and no container is up
  (`LifecyclePairs.TakeoverAgreesIff`).
- A row can stay `starting` or `stopping` for good: when a command or an answer is lost (`LifecycleOverlap.LossSticks`), or when
  the answer is handled before the master's own write (`LifecycleOverlap.LateWriteSticks`).  Otherwise it cannot
  (`LifecycleAnswers.NobodyIsStuck`).
- No wrong row, as opposed to a stuck one, happens to a master that sends a command only for a row that says neither `starting` nor `stopping` and that it
  owes no write, and that gives every new server a container name no server had before
  (`LifecycleAgreement.GuardedServersAgree`).
- A log stream that ends after another one took over its entry takes the other one's entry out
  (`LogStreams.ReplacementCanBeEvicted`); that is the only way the table becomes incomplete
  (`LogStreams.CompleteIffNoneEvicts`).
- The order in which the query returns the port mappings matters exactly when one container port and protocol is mapped with
  two offsets (`Ports.OrderFreeIffSameOffsets`); the query has no ORDER BY.
- A browser page that outlives a restart of the master keeps showing a window that the hub does not have, until thirty payloads
  have come: an empty history is ignored (`Metrics.Follow` has the exact condition, `Metrics.FollowAfterRestart` the case).
- A fetched history is filed under the agent that is selected when it arrives, not the one it was fetched for
  (`Metrics.OpenAnother`).
- Seeding is not idempotent for every registry; `SeedingTwice.IdempotentIffRestored` is the exact condition, and registries
  of distinct slugs meet it.

A run of the lifecycle is *orderly* when a server gets a command only after its previous one is over, the master's own
status writes succeed, a lookup by name finds a container of exactly that name, and a container name has one server at a
time: a name that another server once had may be taken over when that server's row and work are gone and no container is up
under it.  It is *careful* when the first point is replaced by the rule about the row, and *guarded* when also every new
server's name is one that no server had; these two rules speak only of what the master itself wrote and remembers.

## Model

| member | source | states |
|---|---|---|
| Rcon.Int32Inverse | agent/rcon.go:106-115 | `readInt32` recovers every 32-bit value from what `writeInt32` wrote, negative ones included |
| Rcon.BytesInverse | agent/rcon.go:106-115 | `writeInt32` reproduces every group of four bytes from what `readInt32` made of it |
| Rcon.FrameLayout | agent/rcon.go:51-63 | a frame is the size of what follows it, the id and the type, each four bytes little-endian modulo 2^32, then the body and two zero bytes |
| Rcon.WriteInt32 | agent/rcon.go:106-111 | the four bytes at the offset become the little-endian two's complement; every other byte stays |
| Rcon.RconSend | agent/rcon.go:51-63 | a send without error put exactly one whole frame on the wire, one with an error at most a leading part of it |
| Rcon.Conn.Read | agent/rcon.go:94-104 | Go's `Read`: some leading part of the stream, possibly none of it, lands in the buffer and leaves the stream, however much the caller asked for, with or without an error |
| Rcon.Conn.Write | agent/rcon.go:51-63 | Go's `Write`: without an error everything goes out, with one some leading part |
| Rcon.ReadFull | agent/rcon.go:94-104 | whatever the chunks: the count is the number of bytes taken off the stream and placed, in order, at the start of the buffer; no error means the buffer is full; on a reliable connection an error means the stream was too short |
| Rcon.RconRead | agent/rcon.go:65-92 | for every stream and chunking: a packet is returned exactly as the reference parser finds it, a bad size takes four bytes and is reported as such, a read error never takes more than the frame; on a reliable connection an error means the stream was too short |
| Rcon.ParseEncode | agent/rcon.go:51-92 | a frame written by `rconSend`, followed by anything, is read back with its id, type and body when the body has at most 4086 bytes, and rejected by its size otherwise |
| Rcon.StreamRoundTrip | agent/rcon.go:51-104 | frames written back to back come off the stream one per read, whole and in order, and after n reads the stream stands at the boundary of frame n |
| Rcon.SendAll | agent/rcon.go:51-63 | sending a list puts its frames on the wire back to back |
| Rcon.ReceiveAll | agent/rcon.go:65-104 | as many reads as there are frames on the stream return them in order and leave nothing on it |
| Rcon.SendAndReceive | agent/rcon.go:51-104 | packets of at most 4086 body bytes sent one after the other by `RconSend` are returned by as many `RconRead` calls with the same id, type and body, in order, in any chunking |
| Rcon.PrintParse | agent/rcon.go:65-92 | encoding an accepted packet gives back as many bytes as were consumed, equal to them except perhaps the last two, and equal altogether exactly when those two were zero |
| Rcon.SendRconCommand | agent/rcon.go:9-42 | the command goes out only after an authentication reply other than -1; on a reliable connection the outcome and everything written are the function `Session` of what the server sends, which `SessionExactly` spells out; on any connection each outcome tells exactly how far the session came and what was written |
| Rcon.SessionExactly | agent/rcon.go:20-41 | for any messages the server sends, of any length, and anything unfinished or refused behind them: the authentication read fails if and only if the first message is missing, cut short or over 4086 bytes; the password is wrong iff it is readable with id -1; the command read fails iff it is readable with another id and the second is not; the response is b iff both are readable and b is the second body |
| Rcon.SessionByPosition | agent/rcon.go:21-41 | for any transcript of the server: the outcome is a wrong password exactly when the first packet has id -1, and otherwise the body of the second packet, whatever their ids and types |
| Rcon.RefusalReported | agent/rcon.go:21-41 | for any transcript of the server whose packet k carries the refusal (id -1): the refusal is reported if and only if the very first packet has id -1; otherwise the session answers with the body of the second packet |
| Rcon.SessionWithPlainReplies | agent/rcon.go:9-42 | against a server that sends one reply per request, a session ends in the reply's body, or in a refusal exactly when the authentication reply has id -1 |
| Rcon.SessionWithLeadingEmptyReply | agent/rcon.go:21-41 | against a server that sends an empty response before its authentication verdict, every session ends in an empty response, whatever the verdict and whatever follows |
| Hub.Hub.Register | master/main.go:75-79 | the name stands for the new connection; nothing is closed |
| Hub.Hub.Unregister | master/main.go:81-88 | when the name stands for any connection, that entry goes and the channel of the unregistering connection is closed; otherwise nothing happens |
| Hub.Hub.AddPending | master/main.go:165-170 | the pending table gets the connection under its name, whatever was there |
| Hub.Hub.RemovePending | master/main.go:172-176 | the name leaves the pending table |
| Hub.Hub.TakePending | master/main.go:178-186 | an approval takes the pending connection and its entry out in one step |
| Hub.Hub.Find | master/main.go:154-163 | a send reaches the connection that the registry has under the name |
| Hub.Hub.MakeConnection | master/websocket.go:97-102 | a new connection with an open channel of its own, known to the hub goroutine and not yet in the registry |
| Hub.Replace | master/main.go:75-88 | registering two connections of one name and unregistering the first leaves the tables of that history |
| HubSafety.ChannelsAreSafe | master/main.go:72-163 | in every interleaving: no channel is closed twice and none is sent on after its close; a registered connection's channel is open; a connection with a send in flight stays registered and open, so nothing is closed while a sender holds the read lock |
| HubSafety.StepSafe | master/main.go:72-207 | every step of every goroutine keeps the whole safety invariant |
| HubSafety.NothingIsLostOrOvertaken | master/websocket.go:193-220 | in every interleaving, per connection: accepted messages (exactly those sent, by `HubEvents.DeliveryIsExact`) are those written, at most one lost, the one being written and the queued ones; the wire is the approval, the written messages in order and the close frame, which comes only after every accepted message; a connection is promoted at most once |
| HubEvents.DeliveryIsExact | master/main.go:154-163 | in every interleaving, what entered the channel of a connection is exactly the messages of the completed sends and broadcasts to it, in order; the written ones are the first of these, as many as successful writes happened, the queued ones those not yet taken, and the writer has ended exactly when a write or ping failed or the close frame went out |
| HubEvents.SendsBegin | master/main.go:154-163 | a send to a registered name begins, to the connection the name stands for at that moment, and to any other name does nothing; a broadcast begins to every registered connection |
| HubEvents.SendsComplete | master/main.go:161 | a send that began can complete exactly while fewer than 256 messages are queued on its connection, and so can a broadcast to each of its targets |
| HubEvents.SendersAreExact | master/main.go:154-163 | the sends in flight are those begun and not completed, each with the connection and message it began with |
| HubEvents.RegistryFollowsEvents | master/main.go:72-88 | in every interleaving, `Agents[name]` is c if and only if c's registration is the last thing the hub goroutine carried out under that name since the last restart |
| HubEvents.HistoryIsExact | master/main.go:72-88 | the recorded registrations and unregistrations are those the hub goroutine carried out, under the names the connections gave |
| HubEvents.RunIsExact | master/main.go:72-123 | what the hub goroutine is at follows from what it received and finished, and a broadcast still has to reach those registered when it began and not yet served |
| HubTable.WireIsExact | master/main.go:188-204 | in every interleaving, the wire of a connection is the approval with the token of the request that took it from the pending table, if it was written, then the first of the messages sent to it, and the close frame |
| HubTable.PendingIsExact | master/main.go:165-186 | in every interleaving, the pending table has under a name the connection that entered last, unless a waiter of the name ended or an approval of it took place since |
| HubTable.StatusIsExact | master/db.go:202-248 | in every run, restarts included, a row's status is the one of the last insertion, approval, coming online or going offline of its name |
| HubTable.ApprovalsAreExact | master/api_agents.go:132-148 | the approvals of the table are those that were requested, with their tokens |
| HubTable.ApproversAreExact | master/api_agents.go:140-146 | the approval requests between their two halves are those that wrote a row and have not looked for a connection |
| HubTable.AdmissionIsExact | master/websocket.go:58-106 | reading its row, a connection is inserted iff there is none, waits iff the row is pending, is refused iff it is approved with another token, and comes in otherwise |
| HubTable.GreetingIsExact | master/main.go:188-192 | the token written to a connection is the one of the approval that took it from the pending table |
| HubTable.RowIdsStayDistinct | master/db.go:56-64 | agents keep different ids |
| HubHistory.RegistryIsExact | master/main.go:72-88 | after every history, `Agents[name]` is c if and only if c was the last connection registered under the name and no connection of that name has unregistered since |
| HubHistory.ClosingIsExact | master/main.go:81-88 | after every history, a channel is closed if and only if its connection unregistered at a moment when its name stood for some connection |
| HubHistory.StaleUnregistration | master/main.go:81-88 | after c1 and then c2 register under one name and c1 unregisters, the name stands for nobody; whatever happens then, c2's channel stays open, and when c2 unregisters it is closed if and only if another connection has registered the name in between and is still there |
| HubReplacement.ReplacedRun | master/websocket.go:58-130 | a run from the empty database in which this happens: both connections have unregistered and the channel of the second is still open |
| HubReplacement.WelcomedRun | master/main.go:178-204 | a run in which an unknown agent connects, is approved and is sent a message: the approval with its token and then the message are on its wire |
| HubApproval.PendingUntilApproved | master/db.go:202-228 | in every run, restarts included, a row is pending if and only if no approval was ever issued for it, and its token is the one of the last approval |
| HubApproval.NeverPendingAgain | master/db.go:202-248 | once a name's row has left pending it never returns to it and keeps its id, whatever follows |
| HubApproval.OnlyApprovedAgentsRegister | master/websocket.go:58-106 | in every run, only names whose row has left pending are in the registry |
| AgentQueue.Agent.SendMessage | agent/agent.go:186-206 | undisturbed: after Stop nothing is offered; otherwise the message is queued exactly when there is room and dropped otherwise |
| AgentQueue.Agent.Offer | agent/agent.go:201-205 | the non-blocking send, which may also come after a Stop that the sender did not see: queued exactly when there is room, dropped otherwise |
| AgentQueue.Agent.WriterReceive | agent/agent.go:132-135 | the writer takes the oldest queued message |
| AgentQueue.Agent.WriterWrite | agent/agent.go:140-143 | a written message is written once; a failed write loses it and ends the writer |
| AgentQueue.Agent.WriterPingFailed | agent/agent.go:144-148 | a failed ping ends the writer and loses nothing |
| AgentQueue.Agent.Accounting | agent/agent.go:124-206 | at any moment the offered messages split exactly into written, at most one lost, being written, queued (at most 256) and dropped, and the written ones are an in-order subsequence of the offered ones |
| Windows.WindowIsTailOfLog | master/main.go:131-137 | after any interleaving over many agents, each window is the last min(30, n) values of its own log in order, also when it started as the window of an earlier history |
| Metrics.History.StoreMetrics | master/main.go:125-138 | the agent's window gets the payload and keeps its last 30, the latest entry is replaced, other agents keep theirs, and every slice handed out before still reads what it was handed out with |
| Metrics.History.Append | master/main.go:132-133 | Go's `append`, in place or into a new array: the result is live and shows the longer contents, and nothing that was written before changes |
| Metrics.History.AppendTrimmed | master/main.go:132-136 | append followed by re-slicing shows the last 30 and leaves everything written before as it was |
| Metrics.History.GetMetricsHistory | master/main.go:140-144 | hands out a slice that shows the agent's window and records it as a snapshot |
| Metrics.ReadOut | master/main.go:140-144 | reading a returned slice straight off its array, at any later time, gives what it was returned with |
| Metrics.Run | master/main.go:125-144 | in any run of stores and fetches over any agents, every slice ever returned shows at the end the tail of that agent's log at the moment it was returned; the windows and latest entries are those of the whole log |
| Metrics.LatestIsLast | master/main.go:129 | the latest entry of an agent is the last payload of its log, and exists exactly when there is one |
| Metrics.Client.HandleMetrics | ui/js/app.js:95-108 | one payload is pushed on its agent's window and one reading on each container's, each cut to its last 30 |
| Metrics.ContainerWindow | ui/js/app.js:101-107 | after a payload each container's window is the old one followed by that container's readings in order, cut to its last 30 |
| Metrics.Client.HandleAll | ui/js/app.js:95-99 | payloads handled one after the other are pushed in order, each under the name it carries |
| Metrics.Client.Record | ui/js/app.js:96-99 | push and splice keep the last 30 entries of one array and leave the others alone |
| Metrics.Client.HistoryArrives | ui/js/agent.js:20-25 | a history that is not empty replaces the window of the agent selected when it arrives; without a selection nothing changes |
| Metrics.ClientAgreesWithHub | ui/js/app.js:95-99 | a browser window that was equal to the hub's and then handled the relayed payloads, under the names in them, equals the hub's, which goes by the names of the connections, and both are the tail of the whole log |
| Metrics.Follow | ui/js/agent.js:18-27 | a session on one agent: its history is fetched and arrives, and the browser handles what the hub relays; its window is the hub's if and only if the hub had recorded something before, or the browser had no window, or thirty payloads came since |
| Metrics.FollowedWindow | ui/js/app.js:95-99 | the same about the windows themselves: after any payloads, the loaded or kept window and the hub's are equal if and only if one of the three holds |
| Metrics.InSight | ui/js/app.js:98-99 | two windows followed by the same at most thirty payloads become equal if and only if the parts of them still in sight are |
| Metrics.FollowAfterRestart | ui/js/agent.js:21 | after a restart of the master, a browser that had a window differs from the hub until thirty payloads have come |
| Metrics.OpenAnother | ui/js/agent.js:18-24 | opening another agent before the history arrives files it under the other one, unless it is empty, and leaves the first one as it was |
| Metrics.Fetch | master/main.go:140-144 | the fetched history is the hub's window, although it is read off the shared array |
| Environment.BuildEnv | master/api_servers.go:548-589 | the environment is, for every key, the value of the strongest of seven layers that defines it and nothing for any other key, whatever the order of map and row iteration |
| Environment.StrongestIsHighest | master/api_servers.go:548-589 | the lookup finds the value of the highest layer that has the key, and none exactly when no layer has it |
| Environment.EnvIsExpected | master/api_servers.go:548-589 | key by key: a port-derived variable decides, else the RCON password, the password, the player limit under their variables if set, else the server's entry, its mode, its game |
| Environment.AddMeaning | master/api_servers.go:585-587 | port plus offset, modulo 2^64 and exact when it fits |
| Environment.Overlay | master/api_servers.go:555-557 | writing all entries of a map in any order gives the map laid over the environment |
| Environment.OverlayRows | master/api_servers.go:559-570 | the same for the configuration rows, in any order |
| Environment.OverlayPorts | master/api_servers.go:585-587 | the same for the port-derived variables, with 64-bit sums |
| Environment.OverlayFields | master/api_servers.go:576-584 | player limit, password and RCON password are laid over in that order, each only when it has a variable and, for secrets, a nonempty value |
| ServerConfig.ServerDb.CreateServer | master/api_servers.go:183-254 | exactly the complete requests that fit the columns and refer to existing rows create a row, under a new id, each column as requested and empty secrets absent, with the nonempty entries of the request as its configuration; any other request changes neither rows nor entries |
| ServerConfig.ServerDb.UpdateServer | master/api_servers.go:256-313 | exactly the requests that fit, for an existing row, are applied: each secret is the requested one or none, port and player limit are the requested ones unless zero, every other column stays; each nonempty key gets its value, each emptied key goes, all else stays |
| ServerConfig.ServerDb.ApplyEdits | master/api_servers.go:297-310 | in any iteration order, the entries become the edited ones, unique per server and key and never empty |
| ServerConfig.ServerDb.InsertEntries | master/api_servers.go:239-251 | the nonempty requested entries are inserted, in any iteration order |
| ServerConfig.ServerDb.DeleteServer | master/api_servers.go:342 | the row goes, and by the cascade its entries; other servers keep theirs |
| ServerConfig.ServerDb.SelectConfigs | master/api_servers.go:559-561 | the query returns the entries of the server, all and only |
| ServerConfig.ServerDb.BuildServerStartPayload | master/api_servers.go:495-591 | for an existing server, the environment resolves the layers made of its game, its mode, its entries and its own fields, and holds under every key what the columns of these rows say |
| ServerConfig.ServerDb.UpdateThenBuild | master/api_servers.go:256-591 | after an update the next start has the requested RCON password, password and player limit under their variables and the port-derived variables from the new port, unless a stronger field has the same variable |
| ServerConfig.UpsertHolds | master/api_servers.go:301-305 | the upsert keeps one row per server and key and stores the value |
| ServerConfig.InsertNewHolds | master/api_servers.go:243-247 | the insert keeps one row per server and key and never replaces a value |
| ServerConfig.DeleteHolds | master/api_servers.go:298-299 | the delete removes exactly the entry |
| ServerConfig.RemainHolds | master/db.go:115-122 | the cascade removes exactly the entries of the deleted server |
| ServerConfig.PatchDeterministic | master/api_servers.go:297-310 | the outcome of an update does not depend on the order in which Go visits the request's map |
| ServerConfig.UpdateIdempotent | master/api_servers.go:277-310 | applying the same update twice is applying it once, on the row and on the entries |
| ServerConfig.EditReachesEnv | master/api_servers.go:297-310 | after an update, the next built environment has each requested nonempty key at its new value and each emptied key at its mode or default value, unless a later layer overwrites it, and unmentioned keys as before |
| ServerConfig.ContainerNamesCollide | master/api_servers.go:206-208 | two servers share a container name if and only if their names have equal length and at each place both have a space, underscore, dot or hyphen, or characters that differ at most in ASCII case |
| ServerConfig.ContainerNameMeaning | master/api_servers.go:206-208 | the container name is the prefix and then the name, each place a hyphen for a separator, lower case for a capital, and the character itself otherwise |
| Ports.ExpandPorts | agent/docker.go:79-116 | the exposed keys are the bound keys; `port/tcp` is bound if and only if some mapping of the port says "tcp" or "both", `port/udp` iff some mapping of it does not say "tcp", each to 0.0.0.0 at base port plus offset of the last such mapping, and nothing else; without mappings exactly the base port under both |
| Ports.ExpandOne | agent/docker.go:82-102 | one mapping binds its port under each of its protocols and leaves the other bindings; what the protocols are is stated of `ExpandPorts` |
| Ports.KeyInjective | agent/docker.go:97 | the `port/proto` key determines the port and the protocol |
| Ports.BoundKeys | agent/docker.go:82-102 | an endpoint is bound if and only if some mapping covers it |
| Ports.BoundLast | agent/docker.go:82-102 | it is bound to base port plus offset of the last covering mapping |
| Ports.LastBinds | agent/docker.go:86-102 | the last mapping that asks for a port under a protocol, by its own protocol string, decides where it is bound |
| Ports.BoundShifts | agent/docker.go:83 | another base port shifts every host port by the same amount and changes nothing else |
| Ports.NoGapNoClash | agent/docker.go:82-102 | two servers of one game never share a host port and protocol when the difference of their base ports is no difference of offsets that share a protocol |
| Ports.GapIffClash | agent/docker.go:82-102 | when no endpoint is mapped with two offsets, they share one if and only if it is |
| Ports.BoundOrderFree | agent/docker.go:82-102 | when no endpoint is mapped with two offsets, the bindings depend on neither the order nor the repetition of the mappings |
| Ports.OrderFreeIffSameOffsets | master/api_servers.go:531-546 | the bindings are the same for every order the query may return if and only if no endpoint is mapped with two offsets |
| Ports.DefaultBound | agent/docker.go:105-116 | without mappings the base port is bound to itself for both protocols |
| Ports.DefaultClash | agent/docker.go:105-116 | without mappings two servers share a host port exactly when their base ports are equal |
| Ports.ClashIsVisible | agent/docker.go:99-101 | sharing a host port is the same as having an equal host binding under keys of the same protocol |
| Decimal.ItoaInjective | agent/docker.go:97-100 | decimal renderings are equal exactly for equal numbers |
| Decimal.ItoaMeaning | agent/docker.go:97-100 | the rendering is the decimal one: digits that stand for the number, no leading zero, a sign for negative numbers only |
| LifecycleCausality.ReportedStateWasCaused | master/websocket.go:158-176 | with any reordering, loss and overlap: a `running` row has a container id, and the container of any stored id was created for that server alone and started by an earlier start command for it |
| LifecycleCausality.StartedMeaning | agent/docker.go:151-158 | a container counts as started for a server only by a successful Docker start in a goroutine that handles a start command for that server |
| LifecycleCausality.StepCaused | agent/agent.go:281-299 | every step keeps rows, replies and running goroutines backed by starts |
| LifecycleAnswers.StartAnswers | agent/agent.go:281-299 | in every run, a goroutine that handles a start answers exactly after a failing pull or create or after the start call, for the server of the command: `running`, with a container id, exactly after a start that succeeded and `error` exactly after a failure |
| LifecycleAnswers.StopAnswers | agent/agent.go:301-316 | the same for stop: `stopped` exactly after a stop that succeeded, `error` exactly when none was found or it failed |
| LifecycleAnswers.DeleteAnswers | agent/agent.go:318-333 | and for delete: `deleted`, when none was found or after the removal, well or not |
| LifecycleAnswers.AnswersWereReported | agent/agent.go:186-206 | every answer on its way was reported by a goroutine that was about to give it |
| LifecycleAnswers.NoTransientAnswers | agent/agent.go:281-333 | no answer, on its way or about to be given, says `starting` or `stopping` |
| LifecycleAnswers.HandledRow | master/websocket.go:158-176 | handling an answer leaves the row with the answer's status, which is not a transient one, and with its container id if it has one; every other row stays |
| LifecycleAnswers.NobodyIsStuck | master/api_servers.go:346-404 | when nothing is lost and answers are handled after the master's own write, a row says `starting` or `stopping` only while work of its server is on its way, however many commands overlap |
| LifecycleAnswers.RestingRows | master/api_servers.go:346-404 | with commands in order as well, a row at rest says `running` with its container up, `stopped` with none up, `error` or `deleted` |
| LifecycleAgreement.QuiescentServersAgree | master/api_servers.go:346-404 | in every orderly run, whenever nothing is under way for a server, a row that says `running` holds the id of a container of its name that is up and a row that says `stopped` has none up |
| LifecycleAgreement.OrderlyServersAgree | master/api_servers.go:346-404 | in every orderly run the same holds at every moment when the master owes the row no write, whatever is under way, across all failures and losses and in whichever order the master's own write and the agent's answer reach the row |
| LifecycleAgreement.SettledMeansQuiescent | master/api_servers.go:346-404 | when a row says neither `starting` nor `stopping` and the master owes it no write, nothing is under way for the server, on the network and on the agent included |
| LifecycleAgreement.CarefulRunsAreOrderly | master/api_servers.go:346-404 | a master that sends only when the row says neither `starting` nor `stopping` and it owes the row no write never has two commands for one server under way |
| LifecycleAgreement.CarefulServersAgree | master/api_servers.go:346-404 | when commands are sent by that rule and names are passed on only when free, every row the master owes no write agrees with Docker |
| LifecycleAgreement.GuardedServersAgree | master/api_servers.go:206-230 | when commands are sent by that rule and every new server gets a container name that none had before, every row the master owes no write agrees with Docker; both rules can be followed from the table and a memory of names |
| LifecycleAgreement.StepInv | master/websocket.go:158-176 | every step of master, network, agent and Docker keeps the invariant behind it |
| LifecycleAgreement.ReplyTracked | master/websocket.go:163-175 | handling the one answer of a server settles its row, unless the master's own write is still to come |
| LifecycleAgreement.DockerTouches | agent/docker.go:51-205 | each Docker call touches at most one container, of the goroutine's own name, and a new one takes a free name |
| LifecycleStops.OverlappingStopsAgree | master/api_servers.go:372-404 | any number of stop commands for one server may overlap: whatever else happens to other servers, its row agrees whenever the master owes it no write |
| LifecycleStops.OnlyStopsStays | agent/docker.go:163-180 | every step keeps what makes that so: no stop brings a container up, and every stop answer on its way is true |
| LifecycleStops.DoomedStays | master/api_servers.go:339-342 | once a server is being deleted its row goes or is still to be dropped, whatever happens |
| LifecyclePairs.PairAgreesIff | agent/agent.go:120 | two commands for one server sent back to back, from every state of an orderly run when nothing is under way for it: its row agrees in every continuation if and only if one of them deletes or both stop |
| LifecyclePairs.PairBreaks | agent/agent.go:120 | for every other pair, a continuation with nothing lost, nothing failing and no further command ends with the row saying `running` for a container that is not |
| LifecyclePairs.TakeoverAgreesIff | master/api_servers.go:206-230 | creating a server under a name whose former holders the agent is done with: its row agrees in every careful run from then on if and only if no command of a former holder is on its way and no container is up under the name |
| LifecyclePairs.TakeoverBreaks | master/api_servers.go:339-342 | from every state of an orderly run in which a command of a former holder is on its way or its container is up, some careful continuation ends with the new server's row wrong |
| LifecyclePairs.FreeNameAgrees | master/api_servers.go:206-230 | under a free name the new server's row agrees in every careful run from then on |
| LifecycleMoves.Starts | agent/docker.go:51-161 | from every state a start command can run to its answer, leaving one container of the name, a new one that is up |
| LifecycleOverlap.OrderlyRunsCanStartServers | agent/agent.go:281-299 | a careful run can bring a server up, and its row then says so |
| LifecycleOverlap.OverlapDisagrees | agent/agent.go:120 | a run from the empty system in which a stop command overtakes nothing but the answer to a start: nothing is lost or fails, and the settled row says `running` while the container is down |
| LifecycleOverlap.ReuseDisagrees | master/api_servers.go:339-342 | a run in which a server takes over the name of one deleted while the agent was away: the settled row says `stopped` while a container of its name is up |
| LifecycleOverlap.LateDeleteDisagrees | master/api_servers.go:329-342 | a run in which the name is taken over when no container is up and no row has it, but the delete command is still on its way: the new server's settled row ends up wrong |
| LifecycleOverlap.LateWriteSticks | master/api_servers.go:360-366 | a run in order, with nothing lost, in which the answer is handled before the master's own write: the row says `starting` for good beside a container that is up |
| LifecycleOverlap.LossSticks | agent/agent.go:201-205 | a run in order in which a command is lost: the row says `starting` for good |
| LogStreams.DockerManager.Enter | agent/docker.go:210-215 | the entry under the server's id is cancelled and replaced |
| LogStreams.DockerManager.Delete | agent/docker.go:217-222 | whatever is entered under the id goes, uncancelled |
| LogStreams.DockerManager.StopLogStream | agent/docker.go:257-265 | the entry under the id is cancelled and goes |
| LogStreams.DockerManager.WithCancel | agent/docker.go:208 | a fresh context, not cancelled, with an id of its own |
| LogStreams.DockerManager.Begin | agent/docker.go:207-215 | a stream begins with a fresh context, entered under the server's id after the replaced one was cancelled |
| LogStreams.DockerManager.End | agent/docker.go:217-222 | undisturbed, the deferred function takes out whatever is entered under the id and cancels the call's own context |
| LogStreams.EntriesAreLive | agent/docker.go:207-265 | in every interleaving no entry is cancelled, every entry is a stream of that very server that still reads, and every returned `StreamLogs` has a cancelled context |
| LogStreams.TableIsExact | agent/docker.go:207-265 | in every interleaving, the entry of an id is t if and only if t began under it and since then no stream of that id began or ended and none was stopped |
| LogStreams.CancellingIsExact | agent/docker.go:207-265 | in every interleaving, a context is cancelled if and only if its call is over or it was in the table when another stream of its id began or was stopped |
| LogStreams.CompleteIffNoneEvicts | agent/docker.go:207-265 | throughout a run the table is exactly the set of uncancelled reading streams if and only if no stream ends while the entry of its server belongs to another one |
| LogStreams.StepComplete | agent/docker.go:217-222 | from a complete table, a step leads to a complete one exactly when it is not such an end |
| LogStreams.SerialIsComplete | agent/docker.go:207-265 | when a stream begins only after the earlier ones of its server cleaned up, the table is complete |
| LogStreams.EvictedIsOutOfReach | agent/docker.go:257-265 | a stream that lost its entry to another one's end is cancelled by nothing but its own end, whatever happens later |
| LogStreams.ReplacementCanBeEvicted | agent/docker.go:207-265 | two overlapping streams of one server suffice for that, and StopLogStream no longer finds the second |
| Seeding.GameDb.SeedGames | master/gamedefs.go:50-127 | the nested loops compute the function on tables that the lemmas below are about |
| Seeding.GameDb.SeedParts | master/gamedefs.go:95-123 | the inner loops over ports and modes compute theirs |
| Seeding.SeedGameMeaning | master/gamedefs.go:70-123 | after a game is seeded its port rows are exactly the registered ones that fit, its modes have the settings registered last, ids and names of modes are kept, and other games keep ports and modes |
| Seeding.SeedGameNewMode | master/gamedefs.go:108-123 | a mode that seeding adds belongs to the game, has the name it is first registered with and an id no other mode has |
| Seeding.SeedGameSettles | master/gamedefs.go:70-123 | a seeded game is in the tables as registered, or it can never get in |
| Seeding.SeedGameKeepsSettled | master/gamedefs.go:51-127 | seeding a game of another slug unsettles nothing |
| Seeding.SettledIsFixed | master/gamedefs.go:70-123 | seeding a settled game changes nothing but the ids of port rows |
| Seeding.SeedAllKeepsIds | master/gamedefs.go:50-127 | games and modes that were there keep their ids and names, and game ids stay distinct |
| Seeding.SeedAllKeepsModeIds | master/gamedefs.go:50-127 | mode ids stay distinct over any boot |
| Seeding.SeedingIsIdempotent | master/gamedefs.go:50-127 | seeding twice equals seeding once up to the ids of port rows, for any registry of distinct slugs on any tables, and afterwards every game that can get in is there as registered |
| Seeding.ReferencesStayValid | master/db.go:98-113 | a server's game and mode exist after any boot if they existed before |
| SeedingTwice.IdempotentIffRestored | master/gamedefs.go:50-127 | for any registry, shared slugs included: seeding twice equals seeding once up to the ids of port rows if and only if, for each slug that gets in, every mode of the games of the slug that were turned away for a taken name is also a mode of those that got in |
| SeedingTwice.NamesEntered | master/gamedefs.go:71-93 | which slugs a boot leaves in the table, and under which names, follows from the slugs and names alone |
| SeedingTwice.BootOfSlug | master/gamedefs.go:50-127 | what a boot makes of a slug with several games: fields and ports of the last one that got in, each mode as registered last by one that got in, all else as before |
| SeedingTwice.FirstBoot | master/gamedefs.go:71-93 | the games of a slug that are turned away come before those that get in |
| SeedingTwice.SecondBoot | master/gamedefs.go:71-93 | the next boot lets in every fitting game whose slug is there, and no other |
| SeedingTwice.DistinctSlugsAreRestored | master/gamedefs.go:50-127 | registries of distinct slugs meet the condition on any tables |
| SeedingTwice.SharedSlugIsNotIdempotent | master/gamedefs.go:71-123 | when the first of two games of one slug is turned away and the second gets in, a mode that only the first has is added by the second boot |
| SeedingTwice.SharedSlugExample | master/gamedefs.go:71-123 | there are such tables and games |
| Escape.FourPassesAreOne | ui/js/utils.js:1-7 | the four replacements in their order equal the per-character translation, for every string |
| Escape.UnescapeEscape | ui/js/utils.js:1-7 | a left-to-right entity decoder recovers the string |
| Escape.EscapeUnescape | ui/js/utils.js:1-7 | every well-escaped text is the escape of what it decodes to, so escaping is a bijection onto the well-escaped texts |
| Escape.EscapeInjective | ui/js/utils.js:1-7 | two strings escape to the same text exactly when they are equal |
| Escape.EscapedHasNoMarkup | ui/js/utils.js:1-7 | no `<`, `>` or `"` survives |
| Escape.EscapeTwice | ui/js/utils.js:1-7 | a second escape changes nothing exactly when the string has none of the four characters |

## Left out

- Websocket, HTTP and TCP input and output, deadlines, pings and pongs: only success or failure of a read, a write, a ping or a dial, and the end of a connection, chosen freely at every point.
- Blocking and fairness: safety only.  A send to a full channel blocks in the code and is a step that is not possible yet in the model; that it may block forever is not examined.
- Rcon.Conn.Read: reads that return nothing and no error come any finite number of times in a row; a connection that does so
  forever is not covered.
- AgentQueue.Agent.SendMessage: the test of `stopped` and the enqueue are one step here; a Stop in between is an `Offer` after
  Stop, which every other method allows for.
- The Docker SDK, image pulling, volumes, networks and container logs: Docker is a map from container ids to a name and a running flag, and each call succeeds or fails freely.  A container that exits or restarts on its own is not covered.
- LifecycleAgreement.QuiescentServersAgree: orderly runs only, as described above; `LifecyclePairs` and `LifecycleOverlap` say
  what happens without the points about commands and names.  Docker's name filter may match more than the exact name.
- LifecyclePairs.TakeoverAgreesIff: does not decide the case in which the agent is in the middle of a former holder's command or
  an answer to one is on its way; some of these are harmless, and `LifecyclePairs.FreeNameAgrees` does not need to know which.
- A container that a failing stop leaves running was running before; Docker does not start one by itself.
- The start, stop and delete handlers of master and agent are steps of a transition system and not methods of a class, since what matters about them is how their Docker calls and messages interleave; environment and ports of a start are modelled apart from it.
- An agent serves its own servers only in the code; in `Lifecycle` all agents' goroutines and containers are in one pool, so a container name is unique across machines in the orderly runs.
- Deletion of agent rows and of games; the browser's side of the hub (its clients and the relay to them) apart from the metrics windows.
- HubApproval.NeverPendingAgain: about runs in which no agent row is deleted.
- The agents' heartbeat, host information and last-seen columns, and the checks of the first message of a connection: they do not touch what is modelled.
- JSON and SQL text: decoded requests and rows are the inputs.  `default_env` is taken to decode to an object; a JSON null there makes the code's map nil and its later writes panic.
- NULL values and NUL characters in `server_configs`, SQL errors other than values that do not fit, and handlers that run at the same time on one server's row: each handler of `ServerConfig` runs by itself.
- ServerConfig.ContainerNamesCollide: lower-cases ASCII letters only.
- ServerConfig.ServerDb.CreateServer: VARCHAR limits count characters as the model's strings do.
- Seeding.GameDb.SeedGames: marshalling never fails, and sequences of ids are unbounded.
- Metrics.ClientAgreesWithHub: assumes that an agent signs its payloads with the name it connected under (both come from one
  configuration value), that the fetched history is a copy that arrives before the payloads that follow it (`Follow` and `OpenAnother` have the
  cases of an old window and of another selection), and that agent
  names are not those of properties every JavaScript object has; the metric formulas themselves are not modelled.
- Escape.FourPassesAreOne: starts from a string; the conversion of other values by `String` is not modelled.
- Token secrecy, origin checks and authentication strength.
- Rendering, toasts, sparklines, the sidebar, the admin forms and the game registry of the browser; nginx and compose files; `agent/docker.go_backup070426`, a dead copy.
