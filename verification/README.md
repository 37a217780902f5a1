# A verified model of the benchmark's coordination protocol

The benchmark measures RDMA write throughput between `n` entry nodes (clients) and `m` processing
nodes (servers) under one controller. This project models the control protocol of the three roles
(listen, connect, confirm, start, k checkpoints, stop), the connections, event queues and completion
queues it uses, the client's accounting of a window of outstanding writes, and the writes
themselves, and proves what the measured numbers rely on.

## How the model is built

Two layers.

*The protocol* (`Protocol.dfy`) is a step relation over the whole system: a program counter per node
following the source statement by statement, the connections with the messages on their way, one
event queue per accepting node, and the completions not polled yet. Every theorem about it holds for
every run, that is, for every interleaving of the nodes and of the fabric. What is assumed of the
fabric is listed at the heads of `Protocol.dfy` and, for writes, `DataPlane.dfy`, and is: reliable
delivery in order per connection; a message waits until a receive is posted, a request until the peer listens; events of a node are
read in the order they were queued and the active side's CONNECTED is queued first; every posted
send or write completes exactly once, in any order across endpoints, a write when all its words have
arrived, which they do in any order; what a node sent is delivered before its peer sees its
SHUTDOWN. A message to the controller carries what its sender's buffer
holds when it is delivered, so the stability of that buffer is proved, not assumed. That there are
such runs, whatever n, m and k are, is `Outcomes.CanComplete`.

| file | models |
|---|---|
| `Wire.dfy`, `Protocol.dfy` | messages (`CBM_Benchmark/Config.h:57-98`); the phases of the three roles (`CBM_Benchmark/Main.cpp:14-223`, `CBM_Benchmark/Node.cpp:192-913`), the connection handshake (`CBM_Benchmark/Endpoint.cpp:299-408`) |
| `Invariant.dfy`, `Frames.dfy`, `Facts.dfy`, `Keep*.dfy`, `Runs.dfy`, `Ledger.dfy` | the invariant of the protocol and the proof that every step keeps it |
| `Safety.dfy`, `Delivery.dfy`, `Results.dfy`, `ClockRuns.dfy` | what holds in every reachable state; what replies and send completions prove; what the matrices hold, the clock readings included |
| `Progress.dfy`, `Measure.dfy`, `Termination.dfy`, `Outcomes.dfy` | some step is always possible; runs are bounded; when they end well |
| `DataPlane.dfy` | the writes and the servers' message buffers beside the protocol |

*The imperative code* is modelled as classes with the source's fields and loops, each proved against a
specification function. `Refinement.dfy` connects those functions to the steps of the protocol, and
`LoopRuns.dfy`, `RoundRuns.dfy` and `ServerRuns.dfy` relate whole runs of the client's loop, of the
controller's gather loops and of the server's loop to whole runs of the protocol. The protocol posts the
next receive, copies the report and sends it in one step (`CBM_Benchmark/Node.cpp:412-427`);
`Safety.CommandAlone` proves that nothing can come between them.

| file | models |
|---|---|
| `Accounting.dfy`, `Benchmark.dfy` | the client's loop over the arrays `transfer`, `temp`, `delta` (`CBM_Benchmark/Node.cpp:308-466`) |
| `Dialling.dfy` | `connectToController`, `connectToServers` (`CBM_Benchmark/Node.cpp:192-278`) |
| `Acceptance.dfy`, `Serving.dfy` | `waitAllConn` (`CBM_Benchmark/Node.cpp:1030-1083`) and the server's loop until STOP (`CBM_Benchmark/Node.cpp:505-596`) |
| `Commanding.dfy` | `controllerConnect`, `controllerStart`, `controllerCheckpoint`, `controllerStop` (`CBM_Benchmark/Node.cpp:632-913`) |
| `Gathering.dfy` | the controller's gather loops, the two matrices and their read-out |
| `Endpoints.dfy` | an endpoint's buffers, contexts and keys (`CBM_Benchmark/Endpoint.cpp`) |
| `Setup.dfy` | ports and ids of the endpoints of a node (`CBM_Benchmark/Node.cpp:84-155`) |
| `Schedule.dfy` | the controller's top level and the scheduling of checkpoints (`CBM_Benchmark/Main.cpp:49-155`) |

## Where the code and its documentation differ

The code is followed.

- START is sent to the clients only (`CBM_Benchmark/Node.cpp:642`), not to all hosts as
  `CBM_Benchmark/Node.cpp:629` and `doc/Benchmarking_process_model.bpmn:17` have it.
- `waitAllConn` counts down when a host is lost (`CBM_Benchmark/Node.cpp:1076`); it does not return -1
  as `CBM_Benchmark/Node.cpp:601` says. `Acceptance.ReturnsAtGoal` has what it does instead.
- The client counts every completion of its transmit queue by its context id, those of its own
  reports included, as if it were a write (`CBM_Benchmark/Node.cpp:438-446`). So the totals are not
  the true numbers of completed writes at the client's own id (`Safety.WindowConserved` has the exact
  difference), and a client whose id is not below the number of servers leaves the bounds of its
  arrays at the first such completion. This is the crash noted at `CBM_Benchmark/conf/conf:14`:
  `Outcomes.InRangeExactly` proves that it can happen exactly when there are more clients than servers.
- The endpoint ids of the controller overlap beyond a thousand clients (`CBM_Benchmark/Node.cpp:152`),
  although `README.md:43` speaks of 10000; `Setup.DistinctIds` has the exact limit. It does no harm, as
  receives are posted for clients only (`Setup.ReceiveIds`).

## Model

| member | source | states |
|---|---|---|
| Safety.StartBarrier | CBM_Benchmark/Node.cpp:242-278 | once any client has posted a write, every client is connected to every server and every client endpoint holds the keys of its own server endpoint |
| Safety.ListeningBarrier | CBM_Benchmark/Node.cpp:485-501 | no client asks a server for a connection before every server listens on all its endpoints and is connected to the controller |
| Safety.FirstEvent | CBM_Benchmark/Endpoint.cpp:317-326 | the event a server reads while dialling the controller is its own CONNECTED, never one of a client |
| Safety.AcceptedBeforeStart | CBM_Benchmark/Node.cpp:632-664 | every server has left waitAllConn before START can be sent |
| Safety.CountingUp | CBM_Benchmark/Node.cpp:1034-1082 | in every run the counter is the number of connections up, is never decremented, and the loop ends exactly when all are up |
| Safety.ReplyStable | CBM_Benchmark/Node.cpp:250-261 | while a client's confirmation or report is in flight its control buffer holds it and no step of any node or of the fabric writes that buffer, though a receive is posted on it |
| Safety.ReportStable | CBM_Benchmark/Node.cpp:802-819 | from its arrival until it is copied, a reply stays in the controller's buffer whatever step is taken |
| Safety.CommandAlone | CBM_Benchmark/Node.cpp:412-427 | while a command waits in the client's buffer no other node and not the fabric changes that buffer, its connection or the client, so nothing can between posting the next receive and sending the report |
| Safety.Lockstep | CBM_Benchmark/Node.cpp:370-436 | every client has sent one report per command handled, and their number is that of the controller's round or one less, at most that of the commands sent to it |
| Safety.GatherEnds | CBM_Benchmark/Node.cpp:803-819 | when a gather loop ends exactly one more reply was taken from every client, and from no client twice |
| Safety.AllAtRound | CBM_Benchmark/Node.cpp:803-819 | and every client has then handled exactly the round's number of commands, sent one report for each, and has none in flight |
| Safety.AllReported | CBM_Benchmark/Node.cpp:875-892 | after the stop round every client has sent k checkpoint reports and its totals and none is in flight |
| Safety.TxLag | CBM_Benchmark/Node.cpp:788-800 | sends posted minus completions polled is n+m outside the send loops, so every wait for a send completion can go on |
| Delivery.RepliesDeliver | CBM_Benchmark/Node.cpp:714-749 | once the replies of a round are in, every command sent to a client has been delivered and read |
| Delivery.CompletionsProveNothing | CBM_Benchmark/Node.cpp:788-800 | from the start of any round the controller alone can come to the end of its wait for send completions with none of the round's commands delivered, CONNECT, START, CHECKPOINT or STOP |
| Delivery.ControllerAlone | CBM_Benchmark/Node.cpp:861-873 | the same from any point of a round before its replies, with the exact messages on every connection |
| Delivery.ReuseSafe | CBM_Benchmark/Endpoint.cpp:264-274 | in every round but those of CONNECT and of the command after START, what was sent from a client's buffer has been read when the next command overwrites it |
| Delivery.StartOverwritten | CBM_Benchmark/Node.cpp:642-663 | after START it need not be: the controller alone can come to where the next command has overwritten START in every client's buffer with both unread |
| Safety.WindowConserved | CBM_Benchmark/Node.cpp:438-446 | posted writes are 10 plus the completions counted; outstanding writes are exactly 10, plus the polled report completions at the client's own id; queuesize is 10 plus the sum of the counts |
| Safety.IndexSafe | CBM_Benchmark/Node.cpp:438-446 | a client with an id below m never leaves the bounds of its arrays; any other has polled no report completion before it does, and has sent a report |
| Safety.CrashExactly | CBM_Benchmark/Node.cpp:438-446 | in every run, a client has left the bounds of its arrays if and only if its id is not below m and the run polls the completion of one of its reports |
| Safety.CrashIsLast | CBM_Benchmark/Node.cpp:438-446 | that poll is the last step of the client in the run, so the access out of range is exactly the first polled report completion |
| Safety.NoErrors | CBM_Benchmark/Node.cpp:716-738 | no node ever reads a message of the wrong size or an unexpected command or event |
| Results.ReadOut | CBM_Benchmark/Main.cpp:126-138 | every checkpoint matrix read out holds at i*m+j, with from i and to j, exactly what client i reported for server j in that round: the completions counted since the round before |
| Results.Printed | CBM_Benchmark/Main.cpp:128-137 | a line printed for pair (i,j) after a checkpoint has from i, to j, the bytes of what client i counted for server j since the checkpoint before, the gigabits of those bytes, and as throughput the gigabits per second of its time delta |
| Results.EndToEnd | CBM_Benchmark/Main.cpp:164-177 | per pair the checkpoint deltas sum to what was counted at the last checkpoint, the summary is never less and exceeds it by exactly what was counted after; the time deltas sum to the last checkpoint's time |
| Results.SumsAgree | CBM_Benchmark/Main.cpp:128-132 | sums over a cell of the matrices read out are sums over one server's rows in the client's reports |
| ClockRuns.ReportsTimed | CBM_Benchmark/Node.cpp:385-411 | in every run, record x of report q carries the clock reading of the client's q-th command; a checkpoint's delta is the time since the reading before it or the start, that of the totals the time since the start |
| ClockRuns.TimesAddUp | CBM_Benchmark/Main.cpp:130-131 | in every run that has gathered the totals, the time deltas read out for a pair sum to the clock reading of the client's last checkpoint, and the summary carries that of its STOP |
| ClockRuns.ReadOutTimed | CBM_Benchmark/Main.cpp:130-131 | every checkpoint read out carries the client's own reading for it and the time since the one before |
| Ledger.FullReachable | CBM_Benchmark/Node.cpp:603-913 | invariant, accounts and matrices hold in every reachable state |
| Ledger.KeepFull | CBM_Benchmark/Node.cpp:603-913 | every step of every node and of the fabric keeps them |
| Runs.InvRun | CBM_Benchmark/Node.cpp:192-278 | the protocol invariant holds after every run |
| Facts.Quiet | CBM_Benchmark/Node.cpp:412-427 | while a client's reply is in flight the controller has sent it nothing that is not read |
| Facts.AllUp | CBM_Benchmark/Node.cpp:242-261 | a client told to start implies all n clients are connected to every server |
| Facts.NoneLeft | CBM_Benchmark/Node.cpp:1066-1077 | while a node accepts connections none of them has been shut down |
| KeepAccept.FullHouse | CBM_Benchmark/Node.cpp:1034 | a counter at its goal means that each single connection is up |
| Progress.NeverStuck | CBM_Benchmark/Main.cpp:74-155 | in every reachable state without an out-of-range access some control step is possible until all nodes are done |
| Termination.BoundedRuns | CBM_Benchmark/Main.cpp:103-155 | no run has more control steps than an explicit number in n, m and k, however many writes complete in between |
| Termination.RunsEndDone | CBM_Benchmark/Node.cpp:894-912 | a run that cannot go on has ended with k read-outs, all reports gathered and all n+m SHUTDOWNs counted |
| Outcomes.LastReached | CBM_Benchmark/Node.cpp:392-402 | every client can come to the poll that follows its STOP |
| Termination.Completes | CBM_Benchmark/Main.cpp:74-155 | from every reachable error-free state the benchmark can be brought to its end by control steps alone |
| Measure.StepGrows | CBM_Benchmark/Node.cpp:603-913 | no step loses progress and every control step gains some |
| Outcomes.CanComplete | CBM_Benchmark/Main.cpp:49-183 | for all numbers of clients, servers and checkpoints some run from the start ends with every node done |
| Outcomes.InRangeExactly | CBM_Benchmark/Node.cpp:438-446 | all runs keep within the bounds of the arrays if and only if there are no more clients than servers |
| Outcomes.SomeCrash | CBM_Benchmark/conf/conf:14 | every client whose id is not below the number of servers leaves the bounds in some run |
| Outcomes.AlwaysEnds | CBM_Benchmark/Main.cpp:74-155 | with no more clients than servers every run that cannot go on has ended completely |
| Accounting.CompleteBooks | CBM_Benchmark/Node.cpp:438-446 | counting a completion and answering it with a write keeps the books and the window exact, whatever it completes |
| Accounting.CheckpointBooks | CBM_Benchmark/Node.cpp:404-411 | a checkpoint keeps the books: temp plus what was counted since equals transfer |
| Accounting.CheckpointTelescopes | CBM_Benchmark/Node.cpp:404-427 | with one more checkpoint report the deltas of all reports still sum to temp, completions and seconds alike |
| Accounting.StopFinal | CBM_Benchmark/Node.cpp:392-402 | the final report exceeds temp by exactly what was counted since the last checkpoint |
| Accounting.CheckpointRecords | CBM_Benchmark/Node.cpp:403-411 | after a checkpoint at reading t every record of the report has time t, the time and the completions since temp, and temp has t and the totals |
| Accounting.StopRecords | CBM_Benchmark/Node.cpp:391-402 | after a stop at reading t every record of the report has time and time delta t and the total completions |
| Accounting.CompleteRecords | CBM_Benchmark/Node.cpp:442-446 | a completion is counted once for its id, answered by one write to the same server, and nothing else changes |
| Accounting.WindowExact | CBM_Benchmark/Node.cpp:356-367 | ten writes outstanding per server, and the excess of the count over true write completions, both exact |
| Accounting.FilledAll | CBM_Benchmark/Node.cpp:356-367 | ten rounds of one write to every server open the window |
| Benchmark.Client.constructor | CBM_Benchmark/Node.cpp:320-345 | the three arrays are initialised; delta_sec of two of them keeps what the allocation left |
| Benchmark.Client.Begin | CBM_Benchmark/Node.cpp:348-367 | one receive and the initial nested loop establish books and window: ten writes on every endpoint, all to the keys it holds |
| Benchmark.Client.DifferencesToDelta | CBM_Benchmark/Node.cpp:405-411 | delta and temp after the in-place loop, which reads temp before overwriting it |
| Benchmark.Client.TotalsToDelta | CBM_Benchmark/Node.cpp:392-399 | delta after the loop of the stop |
| Benchmark.Client.Command | CBM_Benchmark/Node.cpp:372-436 | after a command at clock reading t every record has time t; a checkpoint's report has the differences to temp, which takes over time and totals, a stop's report the totals, any other command's the old ones; the report is in the control buffer, the next receive is posted only after a checkpoint, and the result of sending is returned |
| Benchmark.Client.Completion | CBM_Benchmark/Node.cpp:440-446 | one more completion for the context's id and no other, queuesize one more, and one more write of the endpoint with that id, to the keys it holds |
| Benchmark.Client.Iterate | CBM_Benchmark/Node.cpp:370-458 | one iteration: receive queue, then transmit queue, also after STOP, but not after a message of a wrong size or a report that could not be sent |
| Benchmark.Client.Loop | CBM_Benchmark/Node.cpp:370-458 | for any polls the final state and outcome of the loop, failed report sends included, are those of the specification, and the writes handed to each endpoint are those counted, all to the keys it held before |
| Benchmark.RunSound | CBM_Benchmark/Node.cpp:370-458 | for every legal sequence of polls the window stays exact, and no access is out of range if the id is below m |
| Benchmark.StepSound | CBM_Benchmark/Node.cpp:438-446 | an iteration goes out of range exactly at a report completion on a client whose id is not below m |
| Benchmark.StepExactly | CBM_Benchmark/Node.cpp:370-458 | the outcome of an iteration from its polls: it stops at once after a message of another length or a report not sent, and polls the transmit queue in all other cases, also after STOP |
| Benchmark.RunEnded | CBM_Benchmark/Node.cpp:370-384 | nothing is polled after the loop has left |
| Acceptance.Node.WaitAllConn | CBM_Benchmark/Node.cpp:1030-1083 | for any events, failing accepts and key sends included, the endpoints end as specified; the call leaves with 0 at the first event that brings the counter to the goal, with an error exactly at the first event that is invalid or whose answer is not 0, and otherwise waits |
| Acceptance.Node.OnConnected | CBM_Benchmark/Node.cpp:1055-1065 | keys are sent once, by the endpoint the event belongs to, and they are that endpoint's; fails exactly if that endpoint exists and cannot send |
| Acceptance.Node.OnRequest | CBM_Benchmark/Node.cpp:1043-1054 | the request is accepted at the endpoint it was addressed to and at no other; fails exactly if that endpoint exists and cannot accept |
| Acceptance.Counts | CBM_Benchmark/Node.cpp:1030-1083 | for every legal stream of events (per endpoint request, connected, shutdown, repeatedly) the counter is the number of live connections, plus one for each the node dialled itself; every endpoint holds its last active endpoint and sent its keys once per CONNECTED |
| Acceptance.ReturnsAtGoal | CBM_Benchmark/Node.cpp:1034-1082 | on a legal stream that the fabric lets the node answer the call never fails, and returns with exactly goal connections alive if and only if none of the node's own dials was counted |
| Acceptance.RefusedEnds | CBM_Benchmark/Node.cpp:1050-1080 | after a legal stream short of the goal, an accept or key send the fabric refuses ends the call at that event, with its error |
| Acceptance.InvalidEnds | CBM_Benchmark/Node.cpp:1038-1041 | and so does an invalid event, with -1 |
| Acceptance.RequestIs | CBM_Benchmark/Node.cpp:1043-1054 | what a request changes at the endpoint found and at no other, and the result, for every way accepting it can go |
| Acceptance.ConnectedIs | CBM_Benchmark/Node.cpp:1055-1065 | what a CONNECTED changes at the endpoint found and at no other, counted whether the keys could be sent or not |
| Acceptance.Reaches | CBM_Benchmark/Node.cpp:1047-1063 | the search loops find exactly the endpoint an event belongs to, reconnections included |
| Gathering.Controller.Gather | CBM_Benchmark/Node.cpp:803-819 | completions are taken up to the n-th or the first failed wait, whose result is returned, and copied row by row into the array; one of the wrong length is not copied |
| Gathering.Controller.CopyRow | CBM_Benchmark/Node.cpp:809 | the copy stays within the array and replaces exactly one row |
| Gathering.Controller.GatherCheckpoint | CBM_Benchmark/Node.cpp:802-819 | a checkpoint fills the checkpoint matrix |
| Gathering.Controller.GatherSummary | CBM_Benchmark/Node.cpp:875-892 | the stop fills the summary matrix |
| Gathering.Controller.GatherConfirmations | CBM_Benchmark/Node.cpp:715-745 | leaves at the n-th CONNECTED and not before, skips other commands, returns the first error if a message of a wrong length or a failed wait comes first |
| Gathering.Controller.ReadOut | CBM_Benchmark/Main.cpp:126-138 | the nested loops visit every pair once, in the order of the matrix; each line has the fields of its record, the bytes of its completions, their gigabits, and a throughput that times the record's delta_sec is the gigabits |
| Gathering.GatherComplete | CBM_Benchmark/Node.cpp:803-819 | one full report of each client, in any order, fills every row with that client's report, whatever the matrix held |
| Gathering.OrderIndependent | CBM_Benchmark/Node.cpp:803-819 | two orders of the same reports give the same matrix, whatever it held before |
| Gathering.OneEach | CBM_Benchmark/Node.cpp:685-691 | of n completions every client has one if and only if no client has two |
| Gathering.MissedRow | CBM_Benchmark/Node.cpp:803-819 | if two completions carry the same id, some client's row keeps stale content |
| Gathering.CollectedNext | CBM_Benchmark/Node.cpp:808-812 | a message of 40 bytes per server replaces its client's row, one of any other length changes nothing |
| Gathering.ConfirmingIs | CBM_Benchmark/Node.cpp:716-745 | the wait for confirmations fails at the first message of another length than 4 or the first failed wait, is complete at the n-th CONNECTED, and goes on otherwise |
| Commanding.Controller.PostReceives | CBM_Benchmark/Node.cpp:684-691 | one more receive of exactly the given size on each client's endpoint up to the first post that fails, whose result is returned; nothing else |
| Commanding.Controller.SendAll | CBM_Benchmark/Node.cpp:851-859 | the command is sent once on each of the first k endpoints up to the first send that fails, whose result is returned; nothing else |
| Commanding.Controller.ControllerConnect | CBM_Benchmark/Node.cpp:671-750 | a receive and CONNECT to every client up to the first call that fails; returns 0 exactly with the n-th confirmation, otherwise the first error; without one, as many completions are taken as messages were sent |
| Commanding.Controller.ControllerStart | CBM_Benchmark/Node.cpp:632-664 | START to the clients, none to the servers, no receive; returns the first error of sends and waits |
| Commanding.Controller.ControllerCheckpoint | CBM_Benchmark/Node.cpp:757-823 | a receive and CHECKPOINT to every client up to the first call that fails, then the reports in the checkpoint matrix; returns the first error |
| Commanding.Controller.ControllerStop | CBM_Benchmark/Node.cpp:830-913 | a receive per client and STOP to all hosts up to the first call that fails, then the reports in the summary matrix; returns 0 exactly with the SHUTDOWN number n+m, otherwise the first error |
| Commanding.Controller.Command | CBM_Benchmark/Main.cpp:74-155 | over a whole run, whatever fails, every endpoint says and asks only a beginning of what the rounds of the protocol say and ask there, and all of it if the run is done; it is done exactly if no call fails, otherwise the first error is returned |
| Commanding.SaysAll | CBM_Benchmark/Node.cpp:603-913 | what the controller sends on each connection over a run is, message by message, what the protocol has there, and it posts as many receives as the protocol opens, of 4 bytes for the confirmation and 40 per server for each report |
| Commanding.Speaks | CBM_Benchmark/Node.cpp:671-892 | after every round a client has been sent the commands up to it in order, and receives of 4 bytes and then of 40 per server were posted for its replies |
| Commanding.ReceivesFit | CBM_Benchmark/Node.cpp:769-776 | in every run the receive posted for a client's reply number q has the length of that reply |
| Commanding.IssuedIs | CBM_Benchmark/Node.cpp:684-699 | a post that fails keeps the command from being sent to anyone, a send that fails from the endpoints that follow |
| Commanding.DoneExactly | CBM_Benchmark/Main.cpp:74-155 | a run is done exactly if every post, send and wait succeeds and all confirmations and SHUTDOWNs come |
| Commanding.ReturnedIs | CBM_Benchmark/Main.cpp:74-155 | otherwise the first error is returned, wherever it comes |
| Dialling.Client.ConnectToController | CBM_Benchmark/Node.cpp:192-226 | succeeds if and only if connect does and the message is CONNECT, or of another length (only warned about) and the wait for it succeeded |
| Dialling.Client.DialServers | CBM_Benchmark/Node.cpp:242-248 | servers are connected in order up to the first failure, later endpoints are untouched, and each connected one holds the keys it was sent |
| Dialling.Client.ConnectToServers | CBM_Benchmark/Node.cpp:232-278 | CONNECTED is sent if and only if every server was connected and the calls before it succeed; its send completion is taken, and it succeeds only with the START that follows |
| Dialling.TakesLike | CBM_Benchmark/Endpoint.cpp:336-357 | the protocol's step on a receive completion while dialling, of whichever endpoint, fails exactly where connect does, and leaves the same keys |
| Dialling.ObeysLike | CBM_Benchmark/Node.cpp:261-277 | the protocol's step on a command fails exactly where the code does |
| Serving.Server.StayAlive | CBM_Benchmark/Node.cpp:505-596 | ends with 0 in the turn of the first STOP, whose event is still served, with an error exactly at a message of a wrong length before it or an event whose answer is negative; every other event was served |
| Serving.LeavesExactly | CBM_Benchmark/Node.cpp:519-592 | from what is read: 0 exactly after the turn of a STOP of 4 bytes, -1 before a message of another length, or the negative result of an answer right after it |
| Endpoints.Endpoint.Server | CBM_Benchmark/Endpoint.cpp:95-103 | the server side's message buffer is all zeros |
| Endpoints.Endpoint.SetDataBuffer | CBM_Benchmark/Endpoint.cpp:167-179 | word k of the client's message buffer is k |
| DataPlane.WritesAimed | CBM_Benchmark/Endpoint.cpp:181-193 | in every run the writes a client has posted to a server are as many as it counts, and each went to the keys its endpoint holds, those of its own server endpoint |
| Endpoints.Endpoint.CtrlRecv | CBM_Benchmark/Endpoint.cpp:213-227 | the context posted has the endpoint's id and the given size, or that of the whole control buffer for a size of zero |
| Endpoints.Endpoint.SendKeys | CBM_Benchmark/Endpoint.cpp:251-259 | the endpoint's own keys are sent and overwrite the control buffer |
| Endpoints.Endpoint.SendCommand | CBM_Benchmark/Endpoint.cpp:264-274 | the command is sent and overwrites the control buffer |
| Endpoints.Endpoint.Connect | CBM_Benchmark/Endpoint.cpp:299-358 | success if and only if receive and request are posted, the event is CONNECTED (or its read came back with EAGAIN), and the wait brings a completion of the size its context asks for; then the keys received are held, else none change |
| DataPlane.Integrity | CBM_Benchmark/Endpoint.cpp:181-193 | every word k of a server's buffer for a client is 0 or k, and all are k once any completion of that client's writes to the server was polled |
| DataPlane.OwnBufferOnly | CBM_Benchmark/Endpoint.cpp:70-72 | a step changes at most one word, from 0, in the buffer of the writing client's own endpoint |
| DataPlane.CanFinish | CBM_Benchmark/Endpoint.cpp:181-193 | each completion the protocol polls belongs to a posted write whose words can all arrive |
| DataPlane.KeysHeld | CBM_Benchmark/Endpoint.cpp:344-346 | a client that posts writes holds the keys of every one of its server endpoints |
| DataPlane.Projects | CBM_Benchmark/Endpoint.cpp:181-193 | with the buffers added the protocol reaches no new state |
| Setup.Node.Init | CBM_Benchmark/Node.cpp:84-155 | address, port and id of every endpoint pushed and of the controller endpoint, per mode; fails exactly when the server list is too short |
| Setup.Pairing | CBM_Benchmark/Node.cpp:87-105 | with distinct addresses and an offset of at least n, of all listening endpoints of all nodes a dialling endpoint finds, by address and port, exactly that of its own slot at the node it is for: client i endpoint i of server j and of the controller, server s endpoint n+s |
| Setup.DialsWhere | CBM_Benchmark/Node.cpp:108-129 | the address, port and id of every dialling endpoint |
| Setup.SharedPorts | CBM_Benchmark/Node.cpp:134-153 | the controller's ports are distinct if and only if the two ranges do not overlap |
| Setup.Mispairing | CBM_Benchmark/Node.cpp:122-126 | with a smaller offset a server and a client dial the same port |
| Setup.ReceiveIds | CBM_Benchmark/Node.cpp:719-722 | a receive completion at the controller carries an id below n, that of the endpoint it arrived on |
| Setup.DistinctIds | CBM_Benchmark/Node.cpp:135-153 | the controller's endpoint ids are distinct if and only if n is at most 1000 |
| Schedule.Controller | CBM_Benchmark/Main.cpp:74-155 | phases in order, when the loop leaves, how many checkpoints there are after every reading, and check one interval past those taken |
| Schedule.OnTime | CBM_Benchmark/Main.cpp:112-146 | for a positive interval, a reading takes the next checkpoint, number k, if it is at least k intervals of real time, and none otherwise |
| Schedule.NeverEarly | CBM_Benchmark/Main.cpp:112-146 | k checkpoints need a last reading of at least k intervals and at least k readings |
| Schedule.DueExactly | CBM_Benchmark/Main.cpp:116 | the checkpoints due at a reading are the greatest number of intervals that fit into it |
| Schedule.WholeTowardZero | CBM_Benchmark/Main.cpp:116 | the cast of the reading truncates toward zero |
| Schedule.TakenExactly | CBM_Benchmark/Main.cpp:112-146 | the exact number of checkpoints for any clock that does not run backwards: the least over all readings of what was due plus the readings since |
| Schedule.PromptExactly | CBM_Benchmark/Main.cpp:112-146 | no checkpoint is ever late if and only if no two readings in a row skip a due time |
| Schedule.Rounds | CBM_Benchmark/Main.cpp:74-153 | after listening, the phases are the protocol's rounds: every checkpoint after START and before STOP |
| Refinement.ServeRefines | CBM_Benchmark/Node.cpp:371-436 | a receive polled in the protocol is the receive part of the loop's iteration, on the same state |
| Refinement.PollRefines | CBM_Benchmark/Node.cpp:437-451 | a transmit completion polled in the protocol is a legal transmit part of an iteration and goes out of range in both or in neither |
| Refinement.BenchSound | CBM_Benchmark/Node.cpp:370-458 | every client in its loop satisfies what all runs of the loop keep |
| LoopRuns.LoopRefines | CBM_Benchmark/Node.cpp:370-458 | in every run, what a client polls in its loop, with the poll after STOP in the iteration that read it, is a legal sequence of polls, and running the loop on it from its entry gives the client's books, reports, receives and outcome |
| LoopRuns.PollsSound | CBM_Benchmark/Node.cpp:370-458 | so the client satisfies what every legal run of the loop keeps, and is never out of range if its id is below m |
| Refinement.DialRefines | CBM_Benchmark/Endpoint.cpp:336-346 | in every run, a client that polls a completion while dialling gets a successful connect with the keys of the endpoint it dials |
| Refinement.OrderRefines | CBM_Benchmark/Node.cpp:207-218 | in every run, what a client polls while waiting for CONNECT or START passes |
| Refinement.WaitRefines | CBM_Benchmark/Node.cpp:1030-1083 | in every run the events a node reads in waitAllConn are a legal stream without dials of its own, and its counter is what waitAllConn computes from it |
| Refinement.GatherRefines | CBM_Benchmark/Node.cpp:805-818 | a gather step of the protocol is a turn of the gather loop, on a full report of a client not heard in this round |
| RoundRuns.GatherLoopRefines | CBM_Benchmark/Node.cpp:802-819 | in every run, the completions taken in a checkpoint or stop round are full reports of n different clients without a failed wait, and the matrix read out or the summary is what the gather loop makes of them, whatever its array held |
| RoundRuns.ConfirmLoopRefines | CBM_Benchmark/Node.cpp:715-745 | in every run, the loop for the confirmations never fails on the completions taken in its round, and is complete on them exactly when the controller has left it |
| ServerRuns.ServingRefines | CBM_Benchmark/Node.cpp:519-592 | in every run, the server's loop goes on with what the server has read while it is running and has left with 0 when it is done; no connection is accepted or greeted any more |

## Left out

- libfabric itself: memory registration, opening of fabric, domain and queues, provider information. Only the assumptions above are used.
- Acceptance.Node.WaitAllConn: all errors of waiting for an event and of accepting are the one code -1. Errors are absent from the protocol, whose progress and exact counts are claimed for runs without them.
- Benchmark.Client.Begin: posting the writes of the window and the first receive always succeeds; the code at most prints a message when it does not, and the exact counts need the writes.
- Benchmark.Client.Completion: the same of the write that answers a completion.
- Benchmark.Client.Command: the same of the receive for the next command.
- Gathering.Controller.Gather: after a wait that failed the entry looked at is an earlier one, with the id of some client; one that was never written is not modelled.
- Endpoints.Endpoint.Connect: contexts and queue entries are values, their release (`CBM_Benchmark/Endpoint.cpp:348`) is not modelled.
- Safety.ReplyStable: claimed for confirmations and reports. Payloads of messages to clients and servers are taken when they are posted, which the rounds of `Delivery.ReuseSafe` justify; the controller may overwrite a buffer whose keys or START are still in flight (`Delivery.StartOverwritten`), as completions of key sends are never awaited.
- Safety.AcceptedBeforeStart: there is no promise that clients finish writing before servers stop; the code has no such barrier.
- Accounting.WindowExact: counts are unbounded integers; overflow of `queuesize`, `completions` and `sum` is not modelled. The deprecated `data_byte` and the numeric values of the command tags are left out too.
- Schedule.Controller: the elapsed time before the first reading, not initialised in the source (`CBM_Benchmark/Main.cpp:110`), is taken as 0; clock readings are arbitrary inputs, non-negative and not decreasing where a lemma says so.
- Gathering.Controller.ReadOut: the rates are real numbers, without rounding and without a value for a time of zero; file writing and printing are left out.
- Setup.Node.Init: the buffer of a port string is assumed to hold it, and a report to fit the control buffer (`CBM_Benchmark/Main.cpp:238`); invalid modes are left out.
- Endpoints.Endpoint.SetDataBuffer: bytes beyond the last whole word, and the reading of the buffers at STOP (`CBM_Benchmark/Node.cpp:534-540`).
- The clients' own event queues beyond the CONNECTED they wait for, SHUTDOWN events seen by clients, and in the protocol a server's last read of its event queue after STOP (`Serving.Server.StayAlive` has it).
- Configuration and command line parsing, host names, shell and plotting scripts, diagrams.
- The commented-out code in `CBM_Benchmark/Endpoint.cpp:513-603`.
