# Mapago, modelled in Dafny

Mapago measures network throughput. A server starts N workers that listen on N ports; a client starts N workers that
send one share of a byte total each; the client's manager polls the server's counters over a control channel, decides
whether the run has finished or stalled, closes its workers one rendezvous at a time, waits for them, and asks the
server to stop. This project models that run as one state machine in which every interleaving of workers, network,
server, timers and manager is possible, and proves what the run guarantees. Around it stand the server's start-up, the
control plane that serves the requests, and the encoders and arithmetic the guarantees rest on.

| file | what it holds |
|---|---|
| `RunModel.dfy` | the run: streams, network, counters, timers, manager; steps and runs for TCP, UDP and QUIC |
| `RunBytes.dfy`, `RunPolls.dfy`, `RunHandshake.dfy`, `RunTiming.dfy` | conservation; polls; closing; deadline and termination |
| `RunResults.dfy`, `RunFinish.dfy`, `RunStop.dfy`, `RunWitness.dfy` | results of finished runs; when a run can still finish; what the stop closes and its reply holds; concrete runs that fail |
| `EndToEnd.dfy` | from the byte total that was asked for to the one the evaluation script reports |
| `ClientWorker.dfy`, `MsmtManager.dfy`, `MsmtServer.dfy` | the sending worker, the manage loop and the measurement object as objects updated in place |
| `Ports.dfy`, `PortScan.dfy`, `PortReport.dfy` | N server workers scanning for ports at the same time, against the N smallest free ones; their list at the client |
| `ControlPlane.dfy`, `ControlProofs.dfy` | acceptor and handlers around the shared reply: the model, and what holds while no two handlers overlap |
| `ControlService.dfy`, `ControlPorts.dfy`, `ControlWitness.dfy` | which requests are answered and when the server goes deaf, exactly; who holds which port over whole runs; concrete runs |
| `ByteSplit.dfy`, `PortList.dfy`, `Telemetry.dfy`, `Output.dfy`, `Evaluation.dfy` | the byte split in doubles, port list, counter reports, output line, evaluation loop |
| `Frame.dfy`, `FrameBody.dfy` | message frames: encoder, decoder, round trip; what is on the wire and what decodes, each said without the other |
| `Decimal.dfy`, `Text.dfy`, `Sequences.dfy`, `Wrappers.dfy` | decimal numbers, string operations, sums, options |

Classes mirror the places where the program updates state in place. Their methods are tied to the matching model: to
its step function, or (closing loop, start-up) to a whole run of it; the control plane's handler is proved to give what
a run of the small steps gives. The properties are proved about the model's runs.

## Assumptions

- At least one worker, a call size of at least one byte, fresh measurement ids. The results that depend on the update
  interval ask for at least one tick.
- A run starts with one client worker for every port the server reported, which start-up and the port list guarantee
  (`PortReport.ClientSeesEveryPort`).
- A request on a control connection is received by one read, and a client has at most one outstanding: it sends another
  on the same connection only after the server has dropped the previous one without an answer. A frame that does not
  decode ends the process like one of unknown type.
- A call into the management plane is one step of the control plane; the port scan inside a start is proved for every
  interleaving of its workers on its own. All listeners share one address of the server, those of other programs stay
  as they are, the TLS certificates are in place, and closing a QUIC session reports no error.
- TCP neither loses nor duplicates bytes on a stream that is neither broken nor closed by the server. UDP may drop but
  not duplicate. No foreign traffic reaches the measurement ports.
- The append to `usedPorts`, which the code does not lock, and every single read or update of a counter are atomic.
- A Go timer keeps a value that is already in its channel across `Reset`, the behaviour of all Go versions before 1.23.
- A process that calls `os.Exit` or panics leaves the run; such exits are modelled where a property speaks of them
  (start-up, control plane, an unreadable counter). In the control plane, where the results say which requests end the
  process, any other exit may also happen at any time.
- `int` and `uint` are 64 bits wide.

## What the proofs turned up

- The deadline can fire although a larger total has just been seen: if the timer expires between the `select` and the
  `Reset` in the default case, the old value stays in the channel. `RunTiming.ResetDefeatedIff` says exactly when,
  and that such a run can no longer finish, whatever still arrives; `RunWitness.PrematureDeadline` is an instance.
- When info timer and deadline are both ready, `select` picks at random. The loop's length is bounded except for such
  picks: each time the deadline is overlooked buys one more poll (`RunTiming.ManageLoopBounded`).
- A run can still finish if and only if no worker is gone, the lost bytes stay within what rounding up the shares leaves,
  and the next poll comes before the deadline (`RunFinish.FinishesIff`). With an update interval not shorter than the
  deadline no run that has anything to send ever finishes (`RunFinish.ConfigurationFinishesIff`).
- A TCP worker that returns early (no route, write error) makes the manager wait for ever: `RunHandshake.EndReachableIff`,
  with the runs `RunWitness.EarlyReturnDeadlocks` (failed write) and `RunWitness.NoRouteDeadlocks` (failed dial). A QUIC
  worker that gives up after `wg.Done` has the same effect although every byte was counted (`RunWitness.GivingUpDeadlocks`).
- One lost datagram is enough for a UDP run never to finish (`RunWitness.LossDefeats`).
- A TCP connection that a server worker has accepted but not yet published when the stop comes by is never closed; every
  other connection that is open then is (`RunStop.EveryStreamClosed`).
- The QUIC deadline case asks for the stop without telling one worker to close: `RunHandshake.QuicDeadlineClosesNobody`,
  with the run `RunWitness.QuicStopsUnderWorkers`.
- Two handlers that overlap share one reply variable: an answer carries the number of whoever wrote it last, and no type
  if another encoder of the same object has cleared it before (`ControlProofs.LastWriterDecides`). One request over UDP
  is enough (`ControlWitness.UdpBreaksMatching`); discovery over UDP followed by requests over TCP is harmless
  (`ControlWitness.DiscoveryThenTcp`).
- With TCP control only, the server stops accepting for ever in exactly the states `ControlService.Doomed` describes
  (`ControlService.AcceptsAgainIff`). Short of an exit, ways there are: a connection that is closed without sending
  anything (`ControlWitness.HangUpDeafens`); a request of type 2, 9 or 255, which is dropped, whose sender hangs up
  (`ControlWitness.DroppedRequestDeafens`); a start request that names an unsupported module, whose handler blocks
  (`ControlWitness.UnsupportedModuleDeafens`); a TLS or QUIC start with more streams than ports, whose workers search
  on past the last port.
- Single requests that end the server process: any start over UDP (`ControlWitness.UdpStartExits`) and, all excluded by
  the exact service condition of `ControlService.AnsweredIff`, a start with a worker count or call size that is no
  number, a TCP or UDP start that does not get its ports (certain above 58536 streams, `ControlService.TooManyStreams`),
  a stop or info request for an unknown measurement, and a second stop of a TCP or TLS measurement that had a connection
  when it was stopped (`ControlPorts.SecondStopIff`, with the run `ControlWitness.SecondStopDooms`).
- The floating-point split falls short of the total from 2^53 + 1 on: `ByteSplit.SingleStreamReaches`.
- An empty port list does not survive printing and parsing: `PortList.PortListRoundTrip`.
- Encoding the same message object twice sends type 0 the second time: `Frame.SecondEncodingLosesType`.
- The evaluation script's periods are shorter than its measurement length unless the first stream of the first entry
  started first, and bytes of zero-length periods never reach the plot: `Evaluation.PeriodsCoverLengthIff`,
  `Evaluation.PlotMatchesOverallIff`.

## Model

| member | source | states |
|---|---|---|
| `RunResults.FinishedRunSound` | mapago-client.go:518-530 | every TCP or UDP run that ends through the finished branch: stop reply has one counter a stream, total <= deciding poll <= sum of the reply <= workers times share, and < total + workers where the split is exact; all workers have exited, the wait group is zero |
| `RunResults.FinalLineSound` | mapago-client.go:609-636 | the last line such a run prints, parsed as the evaluation script parses it, has one entry a stream and byte numbers adding up to between total and total + workers - 1 |
| `RunResults.ReplyNeverBelow` | measurement-plane/tcp-throughput/server.go:182-224 | stream by stream, the stop reply is at least every counter at any earlier point of the run, whatever happens in between |
| `RunResults.TooMuchLostNeverFinishes` | mapago-client.go:684-734 | once more bytes are lost than workers times share minus total, no continuation gets the finished verdict, and a run that leaves the loop timed out |
| `RunResults.FinishIffWithinSlack` | mapago-client.go:537-544 | when everything is sent and either counted or lost, the next completed poll, with anything interleaved, meets the finish test if and only if the lost bytes stay within that slack |
| `RunResults.LineTotalIsSum` | measurement-plane/tcp-throughput/server.go:209-221 | the printed counters of a stop reply, read back as decimal numbers, add up to the sum of the counters |
| `RunFinish.FinishesIff` | mapago-client.go:489-533 | from every reachable state of the manage loop (TCP or UDP) the stop reply of a finished run can be reached if and only if no worker is gone, the loss is within the slack, and a poll can still be completed and noticed before the deadline; settling, polling, waiting, closing and stopping are put together into one run |
| `RunFinish.TooLateNeverFinishes` | mapago-client.go:490-516 | once it is too late for such a poll (timers and best possible total compared), no continuation finishes, whatever arrives |
| `RunFinish.ConfigurationFinishesIff` | mapago-client.go:42-48 | which settings allow a finished run at all: shares reaching the total, a deadline, and an update interval shorter than it unless nothing is to be sent |
| `RunBytes.BytesConserved` | measurement-plane/tcp-throughput/client.go:75-107 | in every reachable state and every stream: still to send + on the way + read + lost + counted = share (+ bytes of failed writes, zero on an unbroken TCP stream); nothing beyond the share ever leaves the worker outside QUIC |
| `RunBytes.LifeKept` | measurement-plane/tcp-throughput/server.go:136-178 | in every reachable state: a read fits the buffer; over TCP or QUIC nothing is accepted or counted on a stream that was never connected; a server worker that has ended without a stop is not a UDP one, has counted every byte that was not lost, and its client has left |
| `RunBytes.OneBufferAStep` | measurement-plane/tcp-throughput/client.go:75-110 | no step sends more than one buffer of a worker's share |
| `RunBytes.SilentAfterLeaving` | measurement-plane/tcp-throughput/client.go:61-71 | in every continuation a worker that has taken its close or has left sends nothing more |
| `RunBytes.RunConserves` | measurement-plane/tcp-throughput/server.go:154-169 | along every run conservation is kept and no counter and no count of lost bytes ever falls |
| `RunBytes.TotalBounded` | measurement-plane/udp-throughput/server.go:137-165 | outside QUIC no counter exceeds its stream's share and the total stays within all shares |
| `RunBytes.ClosedStreamFrozen` | measurement-plane/tcp-throughput/server.go:187-198 | a stream closed by the server never counts another byte except from a read that was complete before the close, and a closed listener accepts nobody; which streams a stop closes is `RunStop.EveryStreamClosed` |
| `RunStop.EveryStreamClosed` | measurement-plane/tcp-throughput/server.go:182-198 | over every run of the stop handler to its reply: it comes by every open stream, and that stream is closed at the end if and only if its worker was not between accept and publish then; a closed one never counts more than it had counted and read when it was closed |
| `RunStop.UdpStopIsFinal` | measurement-plane/udp-throughput/server.go:168-206 | in every reachable UDP state with a stop reply all streams are closed, and no continuation changes any stream's counted plus read bytes |
| `RunStop.ReplyAfterClosing` | measurement-plane/tcp-throughput/server.go:187-221 | from any moment of the stop handler before its first read, in particular once the last socket is closed: the reply has one number a stream, at least the stream's counter then, and for a closed stream at most that plus what its worker had read |
| `RunPolls.PollBracketed` | measurement-plane/tcp-throughput/server.go:231-257 | the counters are read one by one while workers count on, yet the decoded total lies between the true total at the request and the one at the reply, and is never below the previous poll's |
| `RunPolls.PollDecoded` | mapago-client.go:560-574 | with each counter below 2^63 and their sum below 2^64 the reply made of the counters decodes, through printing and parsing, to exactly their sum |
| `RunPolls.LastIsLargestSeen` | mapago-client.go:548-556 | `lastSrvBytes` is the largest total any default case saw, at most the current one, which is at most the bytes counted; the deadline was reset at most that many times |
| `RunHandshake.EndReachableIff` | mapago-client.go:521-529 | from any reachable closing state the stop reply can still be reached if and only if no worker has left without taking a close |
| `RunHandshake.SendsCompleteIff` | mapago-client.go:500-507 | when no worker can take another close, the manager has sent exactly workers minus early leavers, and goes on if and only if there are none |
| `RunHandshake.StuckWhenOneIsGone` | measurement-plane/tcp-throughput/client.go:47-53 | with f >= 1 workers gone the manager stays in the sends in every continuation, never past workers - f of them |
| `RunHandshake.HandshakeCompletes` | measurement-plane/tcp-throughput/client.go:61-71 | with none gone, the remaining sends, exits and the return of `Wait` can all take place, ending at the stop request with every worker exited |
| `RunHandshake.StopCompletes` | measurement-plane/tcp-throughput/server.go:182-229 | from any partial state of the stop handler it can close every stream, read every counter and answer; what it has closed then is `RunStop.EveryStreamClosed`, what it answers `RunStop.ReplyAfterClosing` |
| `RunHandshake.ExitedBeforeStop` | mapago-client.go:525-528 | whenever a stop request is out, every worker has exited and the wait group is zero (QUIC deadline apart) |
| `RunHandshake.EveryWorkerOnce` | measurement-plane/tcp-throughput/client.go:61-67 | while closing: sends made + workers that can still take one + workers gone = workers, so nobody takes two |
| `RunHandshake.UdpNeverGone` | measurement-plane/udp-throughput/client.go:36-84 | in a surviving UDP process no worker ever leaves without its close, so the handshake results apply unconditionally |
| `RunHandshake.QuicDeadlineClosesNobody` | mapago-client.go:339-344 | after the QUIC deadline case no worker has taken a close when the stop request goes out, nor ever afterwards |
| `RunTiming.DeadlineMeansStall` | mapago-client.go:496-516 | when the deadline case can be taken, every default case that saw a larger total lies at least the full interval back, unless the last reset met an expired timer |
| `RunTiming.ResetDefeatedIff` | mapago-client.go:512-516 | exactly when a reset is defeated: right after a raise the deadline case is open if and only if the timer had expired before the reset, and then no continuation of the run ever finishes |
| `RunTiming.OverdueNeverFinishes` | mapago-client.go:490-519 | once a ready deadline waits at the select or behind a poll, the default case is never taken again and no continuation ends through the finished branch, however many bytes still arrive |
| `RunTiming.ManageLoopBounded` | mapago-client.go:489-533 | polls, raises and ticks before the deadline are bounded by a measure over (unseen bytes, ticks left, poll steps left) plus one poll for every overlooked deadline |
| `RunTiming.ManageLoopEnds` | mapago-client.go:483-533 | from the start that bound depends only on the configuration and the overlooked deadlines: a run with more turns than that has left the loop; a loop not left is never blocked |
| `RunWitness.PrematureDeadline` | mapago-client.go:496-516 | a reachable state in which the deadline case is open zero ticks after a larger total was seen |
| `RunWitness.EarlyReturnDeadlocks` | measurement-plane/tcp-throughput/client.go:76-81 | a reachable TCP state, one failed write before the deadline, from which no continuation reaches the stop reply |
| `RunWitness.QuicStopsUnderWorkers` | mapago-client.go:339-344 | a reachable QUIC state in which the run is over and the server closed while a worker is still sending |
| `RunWitness.NoRouteDeadlocks` | measurement-plane/tcp-throughput/client.go:47-53 | a reachable closing state after one failed dial, with a worker gone |
| `RunWitness.LossDefeats` | measurement-plane/udp-throughput/client.go:55-82 | a reachable UDP state, one byte lost, from which no continuation gets the finished verdict |
| `RunWitness.GivingUpDeadlocks` | measurement-plane/quic-throughput/client.go:74-91 | a reachable QUIC state in the finished branch, every byte counted, in which the one worker has given up with `wg.Done` and without a close |
| `RunWitness.BrokenStillCounted` | measurement-plane/tcp-throughput/client.go:76-81 | a reachable TCP state in which the byte of a failed write, accepted after its worker had left, is counted, and the server worker has ended before any stop |
| `RunWitness.BrokenLoses` | measurement-plane/tcp-throughput/client.go:76-81 | a reachable TCP state in which that byte is lost instead |
| `RunWitness.ClosedSessionLoses` | measurement-plane/quic-throughput/client.go:84-91 | a reachable QUIC state in which a byte is lost behind the session that a worker closed when it gave up |
| `MsmtManager.Manager.DefaultCase` | mapago-client.go:510-531 | the default case on the manager's fields is the run model's decision step |
| `MsmtManager.Manager.NoUpdates` | mapago-client.go:548-556 | true exactly when the total did not grow beyond the remembered one, which ends as the larger of the two |
| `MsmtManager.Manager.InfoReply` | mapago-client.go:576-605 | receiving a report is the run model's completed poll: the decoded sum, the timer restarted, or the process given up |
| `MsmtManager.Manager.DeadlineCase` | mapago-client.go:496-508 | the deadline case up to the wait is a run of the model: every worker that has not left takes exactly one close, and the manager gets to the wait if and only if none had left; in QUIC nobody is told and the stop request is next |
| `MsmtManager.Manager.CloseWorkers` | mapago-client.go:521-525 | the closing loop over the unbuffered channel is a run of the model: its sends number the workers that have not left, each of which takes one; it blocks short of the wait if that is not all of them |
| `ClientWorker.WritesAreWholeThenRest` | measurement-plane/tcp-throughput/client.go:72-112 | with complete writes the turns of the loop are floor(share / call size) whole buffers, then the remainder if any, and nothing more; they add up to the share |
| `ClientWorker.Worker.Turn` | measurement-plane/tcp-throughput/client.go:75-110 | one turn offers the chunk size, the unsigned remainder cannot underflow, and it follows the run model's write |
| `ClientWorker.Worker.SendComplete` | measurement-plane/udp-throughput/client.go:55-82 | the loop with complete writes emits whole buffers and one rest, leaving nothing |
| `ClientWorker.Worker.SendPartial` | measurement-plane/tcp-throughput/client.go:72-112 | with partial writes the loop still ends, each write within the call size, the emitted total the share |
| `MsmtServer.MsmtObj.constructor` | measurement-plane/tcp-throughput/server.go:64-75 | every stream gets its own counter object, all at zero |
| `MsmtServer.ServerWorker.CountRead` | measurement-plane/tcp-throughput/server.go:169-178 | one read changes its own stream's counter as in the run model and no other; the first timestamp only if the worker has not set it |
| `MsmtServer.ServerWorker.CountReads` | measurement-plane/tcp-throughput/server.go:154-180 | the counting loop adds all its reads to its own counter and no other; first and last timestamp are those of the first and last read |
| `MsmtServer.MsmtObj.GetMsmtInfo` | measurement-plane/tcp-throughput/server.go:238-250 | the report lists streams 1 to N in order, each with its own printed counter and timestamps |
| `MsmtServer.StreamNamesDiffer` | measurement-plane/tcp-throughput/server.go:65-69 | the storage keys of different streams never collide |
| `PortScan.CompleteMeansSmallest` | measurement-plane/tcp-throughput/server.go:113-133 | for every interleaving, once all workers are ready the reported ports are N distinct ones and exactly the N smallest initially free ports from the start port on |
| `PortScan.StartupOutcome` | measurement-plane/tcp-throughput/server.go:74-82 | a start-up that cannot go on is dead if and only if one of those N ports lies beyond 65535, and otherwise every worker is ready |
| `PortScan.SchedulesEnd` | measurement-plane/tcp-throughput/server.go:113-133 | every schedule is finite, bounded by the ports left to try |
| `Ports.SmallestHasNoGaps` | measurement-plane/tcp-throughput/server.go:132-132 | the reference set is right: it skips no free port below any of its members |
| `PortScan.Startup.Turn` | measurement-plane/tcp-throughput/server.go:113-133 | one worker's turn in place is the model's step and uses up work |
| `PortScan.Startup.RunAll` | measurement-plane/udp-throughput/server.go:115-133 | under an arbitrary scheduler start-up ends, with exactly the N smallest free ports or dead |
| `PortReport.ClientSeesEveryPort` | measurement-plane/tcp-throughput/client.go:30-34 | the client parses the reported list back to exactly the N bound ports, one worker for each |
| `ControlProofs.MutualExclusion` | control-plane/ctrl/server-protocols/tcp.go:86-132 | with TCP control only, acceptors, connections with no request outstanding or one not taken up, requests at the main loop and handlers not back in accept are at most one together, and exactly one if and only if no connection has ended without a handler to follow it |
| `ControlProofs.TokenBalance` | control-plane/control-plane.go:40-63 | in every reachable state those tokens number 1 + requests over UDP - connections that ended (and UDP requests dropped) without a handler to go back to accept, among them a connection closed before its first request |
| `ControlProofs.AnswersMatchRequests` | control-plane/control-plane.go:171-254 | in every run in which no two handlers overlap, UDP or not, every answer sent carries its own request's number, the reply type for it, and its measurement id |
| `ControlProofs.TypedReplies` | control-plane/control-plane.go:199-246 | in every such run every payload received from a measurement passes its handler's type assertion |
| `ControlProofs.StartedIdsStayKnown` | control-plane/control-plane.go:86-95 | an id in a start reply of such a run is in the reply-channel table and the measurement table, then and in every continuation, overlapping or not |
| `ControlProofs.TcpIsOrderly` | control-plane/ctrl/server-protocols/tcp.go:86-132 | with TCP control only no two handlers ever overlap, so the three results above hold for every such run |
| `ControlProofs.LastWriterDecides` | control-plane/ctrl/shared/common-funcs.go:36-55 | with any number of overlapping handlers, the encoder taken apart into call, type and clearing: an answer has its request's number if and only if the last write of the shared variable before the call was for that number, and a type if and only if no encoder of the same object had cleared it when this one took the type |
| `ControlService.AnsweredIff` | control-plane/control-plane.go:44-168 | a request read from a connection can be answered next, with an acceptor waiting again, if and only if its type is handled and: a start names a known module with readable numbers and gets as many ports as streams; a stop names a known measurement of which no TCP or TLS connection was closed by an earlier stop; an info request names a known measurement |
| `ControlService.StartableIsScan` | measurement-plane/tcp-throughput/server.go:74-82 | the start condition is what the concurrent port scan comes to: every schedule of the workers that cannot go on has run past the last port if and only if the condition fails, and has otherwise reported exactly the ports the measurement is recorded with |
| `ControlService.TooManyStreams` | management-plane/management-plane.go:16-16 | more streams than ports from 7000 on never start, whatever is free |
| `ControlPorts.OccupiedExactly` | measurement-plane/tcp-throughput/server.go:113-133 | in every reachable state without exit the occupied ports are exactly those occupied at the start, those of listening measurements, and those kept by a start-up that is blocked |
| `ControlPorts.NoSharedPorts` | measurement-plane/quic-throughput/server.go:123-136 | in every such state, after any starts and stops, two listening measurements that are both TCP or TLS, or both UDP or QUIC, share no port, and their ports lie between 7000 and 65535 |
| `ControlPorts.TakesSmallest` | management-plane/management-plane.go:16-16 | the ports of a start that succeeds are as many as its streams, from 7000 to 65535, free among the listeners of its kind, and skip no such free port |
| `ControlPorts.OtherSocketsIrrelevant` | measurement-plane/quic-throughput/server.go:123-136 | the ports a start gets do not depend on the listeners of the other group of kinds |
| `ControlPorts.StartTakes` | management-plane/management-plane.go:18-34 | a served start adds exactly one measurement, listening, of its kind and streams; exactly its ports become occupied, in its own group of kinds; nothing else changes |
| `ControlPorts.StopFrees` | measurement-plane/tcp-throughput/server.go:182-198 | after a served stop the measurement no longer listens and none of its ports is occupied, every other port is as before, and no other measurement has changed |
| `ControlPorts.RestartNoHigher` | measurement-plane/udp-throughput/server.go:173-176 | from every reachable state: once a listening measurement is stopped, a start of the same group of kinds and as many streams succeeds, and none of its ports is above the highest of the old ones |
| `ControlPorts.SecondStopIff` | measurement-plane/tcp-throughput/server.go:187-198 | after a served stop a second one is served if and only if the measurement is UDP or QUIC or had no open published connection |
| `ControlPorts.ConnectionsWithinStreams` | measurement-plane/tcp-throughput/server.go:136-152 | in every reachable state a measurement has accepted at most one connection a stream, open, unpublished and closed ones together |
| `ControlPorts.StartOutcomes` | management-plane/management-plane.go:18-91 | what the call of a start does, by the request: over UDP the process exits; an unknown module blocks and changes no table; unreadable numbers exit; a start whose ports exist returns; otherwise TCP and UDP exit while TLS and QUIC block |
| `ControlPorts.BlockedKeeps` | measurement-plane/quic-throughput/server.go:123-136 | a blocked start keeps exactly those of its ports that exist |
| `ControlPorts.StoppedForGood` | measurement-plane/tcp-throughput/server.go:136-146 | in every continuation, a stopped measurement never listens again, keeps its ports on record, gets no further connection, and no closed one comes back |
| `ControlPorts.KnownOutcomes` | management-plane/management-plane.go:94-154 | what the call of a stop or info request does: an unknown measurement ends the process, and so does a stop of a TCP or TLS one with a closed connection; every other call returns, an info one without touching the tables |
| `ControlPorts.TypeOutcomes` | control-plane/control-plane.go:44-168 | types 1, 3, 5 and 7 get a handler, 2, 9 and 255 none, and every other type ends the process |
| `ControlService.AcceptsAgainIff` | control-plane/ctrl/server-protocols/tcp.go:86-132 | from every reachable TCP-only state the server can come to accept another connection if and only if it is not doomed, a condition read off its goroutines, the main loop and the tables |
| `ControlService.DoomedForEver` | control-plane/control-plane.go:156-167 | a doomed server never again accepts a connection or sends an answer without UDP, be it by a lost connection, a blocked start, or a request that ends the process |
| `ControlService.TurnServes` | control-plane/control-plane.go:65-154 | a run of the small steps gives a serviceable request exactly the uninterrupted handler's answer, leaves exactly its tables (ids, measurements, ports; `ControlPorts.StartTakes`, `ControlPorts.StopFrees`), and leaves an acceptor waiting |
| `ControlService.Server.Handle` | control-plane/control-plane.go:46-154 | the handlers as straight code: answered are exactly the serviceable requests, with their number, the next type and their id; a started measurement is in both tables, what the tables hold then is `ControlPorts.StartTakes` and `ControlPorts.StopFrees`; the shared reply ends without type |
| `ControlService.Server.CallManagement` | management-plane/management-plane.go:18-154 | a payload comes exactly for a serviceable request, with configuration, ports and earlier stops taken into account; it passes the handler's type assertion and yields its reply |
| `ControlService.Server.HandleMsmtStartReq` | management-plane/management-plane.go:18-34 | the start with its workers scanning under an arbitrary scheduler succeeds exactly if the ports exist, and records and occupies exactly the smallest free ones (`ControlPorts.TakesSmallest`) |
| `ControlWitness.UdpBreaksMatching` | control-plane/control-plane.go:45-59 | a reachable state in which one UDP request made a TCP answer carry the wrong number |
| `ControlWitness.DiscoveryThenTcp` | control-plane/control-plane.go:45-59 | discovery over UDP followed by a request over TCP is a run without overlap, both answered |
| `ControlWitness.HangUpDeafens` | control-plane/ctrl/server-protocols/tcp.go:103-110 | a reachable doomed state after a single connection that was closed without sending anything |
| `ControlWitness.DroppedRequestDeafens` | control-plane/control-plane.go:157-158 | a reachable doomed state after a dropped request whose sender hung up |
| `ControlWitness.UnsupportedModuleDeafens` | management-plane/management-plane.go:18-91 | a reachable doomed state after a start request for an unsupported module, nothing dropped |
| `ControlWitness.SecondStopDooms` | measurement-plane/tcp-throughput/server.go:187-198 | a run that starts a measurement on port 7000, connects, and stops it, which frees the port; a second stop request for it then dooms the server |
| `ControlWitness.UdpStartExits` | control-plane/control-plane.go:65-95 | a reachable state in which the process has ended on a start request over UDP |
| `ByteSplit.SplitExact` | measurement-plane/tcp-throughput/client.go:21-22 | for totals up to 2^53 the double-precision ceiling equals the integer ceiling, so total <= workers times share < total + workers |
| `ByteSplit.SingleStreamReaches` | measurement-plane/tcp-throughput/client.go:22-22 | for one stream and totals up to 2^54 the share reaches the total if and only if the total is at most 2^53 or not 1 modulo 4 |
| `ByteSplit.RelativeError` | measurement-plane/udp-throughput/client.go:21-21 | rounding to 53 significant bits, ties to even, is off by strictly less than 2^-53 of the number |
| `PortList.PortListRoundTrip` | control-plane/ctrl/shared/common-funcs.go:117-137 | printing and parsing a list of 64-bit ints gives the list back if and only if it is not empty |
| `PortList.CommaJoined` | control-plane/ctrl/shared/common-funcs.go:117-120 | the detour through the bracketed print yields the decimal numbers separated by commas |
| `PortList.ConvStrToIntSlice` | control-plane/ctrl/shared/common-funcs.go:122-137 | the parsing loop reads all parts in order, or gives up if any part is no int |
| `Telemetry.CountedReceived` | mapago-client.go:560-574 | the client's count of a report is the 64-bit sum of the counters, and it gives up if and only if some counter has its top bit set |
| `Telemetry.CountCurrSrvBytes` | mapago-client.go:560-574 | the counting loop computes that count for any report, parseable or not |
| `Decimal.AtoiItoa` | control-plane/ctrl/shared/common-funcs.go:126-131 | reading a printed integer gives it back exactly on the 64-bit range |
| `Decimal.ParseUintIff` | mapago-client.go:564-571 | the texts that read as an unsigned number n are exactly its digits with any zeros in front, for n below 2^64 |
| `Decimal.AtoiIff` | control-plane/ctrl/shared/common-funcs.go:126-131 | the texts that read as an integer n are exactly a sign that fits or none, any zeros, and its digits, for 64-bit n |
| `Decimal.DigitsCanonical` | measurement-plane/tcp-throughput/server.go:215-217 | a printed number is its digits without a leading zero |
| `Decimal.SameBits` | measurement-plane/tcp-throughput/server.go:215-217 | the conversion of a counter to int stays in the 64-bit range and keeps it modulo 2^64 |
| `Decimal.ParseUintCounter` | mapago-client.go:564-571 | a counter printed as a signed int parses as unsigned if and only if its top bit is clear |
| `Output.OutputParsesBack` | mapago-client.go:905-937 | parsing the printed line as JSON and taking the three keys gives back exactly the elements, for none, one or many |
| `Output.PrepareOutput` | mapago-client.go:905-937 | the printing loop writes that line, separators between elements only |
| `Frame.FrameRoundTrip` | control-plane/ctrl/shared/common-funcs.go:18-55 | decoding an encoded record restores every field, the type modulo 65536; it is the same record if and only if the type fits |
| `FrameBody.WireCarries` | control-plane/ctrl/shared/common-funcs.go:36-55 | the body of an encoded record, said without the decoder: an object that has each non-empty text under its key and nothing for an empty one, no type, no key twice, always the measurement with its configuration and the data, and nothing else; the same for both nested structs and every data element |
| `FrameBody.PrefixIsType` | control-plane/ctrl/shared/common-funcs.go:39-41 | the two bytes before it are the type modulo 65536, high byte first |
| `FrameBody.DecodesIff` | control-plane/ctrl/shared/common-funcs.go:18-34 | a frame decodes if and only if the body, the nested structs and the data elements are missing, null or objects with texts or nulls under their text keys, the list is missing, null or a list, and a type in the body is a 64-bit unsigned number or null |
| `FrameBody.DecodedFromBody` | control-plane/ctrl/shared/common-funcs.go:18-34 | what any frame decodes to: the prefix as type unless the body has its own, and in every struct and element the last text under each key, empty without one |
| `Frame.SchemaIsProper` | control-plane/ctrl/shared/ctrl-msg.go:72-131 | the program's own message structs meet what the round trip needs: no clash of field names |
| `Frame.SecondEncodingLosesType` | control-plane/ctrl/shared/common-funcs.go:43-44 | a second encoding of the same object decodes with type zero and is otherwise whole |
| `Frame.ConvDataStructToJson` | control-plane/ctrl/shared/common-funcs.go:36-55 | emits the frame of the object as it was, whose content `FrameBody.WireCarries` gives, and leaves the caller's object with type zero, otherwise unchanged |
| `Frame.ConvJsonToDataStruct` | control-plane/ctrl/shared/common-funcs.go:18-34 | returns a fresh object with the decoded record, or fails exactly when the body does not decode |
| `EndToEnd.ScriptReportsTotal` | scripts/evaluation.py:58-98 | when the last entry the script has read is the final line of a finished TCP or UDP run, it counts at least the bytes asked for and fewer than `workers` more |
| `Evaluation.FinalBytesAdded` | scripts/evaluation.py:79-86 | the script's byte count ends as the sum of the bytes of all streams of the last entry |
| `Evaluation.MaxIsLatestEnd` | scripts/evaluation.py:74-77 | the maximum ends at or above every end in the input, and is one of them or the initial year 1 |
| `Evaluation.PointAdded` | scripts/evaluation.py:82-98 | by the input: an entry adds a point if and only if it brought other bytes and a later end, at the time since the earliest start, of a height that carries the new bytes over the new time; earlier points stay |
| `Evaluation.OverallByInput` | scripts/evaluation.py:101-103 | no overall figure if and only if latest end and earliest start agree; otherwise the length is the time between them, and rate times length the bytes of the last entry's streams in Mbit |
| `Evaluation.Units` | scripts/evaluation.py:82-90 | a million microseconds are a second, 125000 bytes a million bits; the initial minimum is the beginning of the year 4000 |
| `Evaluation.DataConserved` | scripts/evaluation.py:58-98 | the stored points, each throughput times its period's duration, sum to 8 / 10^6 times the final bytes less those of zero-length periods; one point for every plotted period |
| `Evaluation.PlotMatchesOverallIff` | scripts/evaluation.py:93-103 | the area under the stored points equals the overall rate times the measurement length if and only if no bytes fall into zero-length periods |
| `Evaluation.DurationsTelescope` | scripts/evaluation.py:67-91 | all durations add up to the latest end minus the first stream's start |
| `Evaluation.PeriodsCoverLengthIff` | scripts/evaluation.py:88-101 | they never exceed the measurement length, and equal it if and only if that first stream started first of all |
| `Evaluation.PlotIncreases` | scripts/evaluation.py:82-98 | the plotted x values strictly increase and stay within the measurement length |
| `Evaluation.MinBelowAllStarts` | scripts/evaluation.py:67-68 | the minimum ends at or below every start in the input |
| `Evaluation.MinAttained` | scripts/evaluation.py:67-68 | and is one of them or the initial year 4000 |
| `Evaluation.Evaluator.Consume` | scripts/evaluation.py:58-98 | one entry's pass over the script's variables is the fold's step, whose effect `Evaluation.PointAdded` and `Evaluation.FinalBytesAdded` give by the input |
| `Evaluation.Evaluator.Evaluate` | scripts/evaluation.py:58-98 | the whole loop computes the fold over all entries |

## Left out

- RunResults.FinishedRunSound: TCP and UDP only; in QUIC a write reported as failed is repeated without reducing the remainder, so bytes may be counted twice and no bound by the share holds. The bound total + workers is claimed for totals and worker counts up to 2^53, where the split is exact.
- RunFinish.FinishesIff: some run finishes; that the scheduler and the network take it is not modelled. QUIC and an update interval of zero are not covered.
- RunResults.FinishIffWithinSlack: speaks of a poll taken once everything is counted or lost; that a network settles is not claimed.
- RunTiming.DeadlineMeansStall: carries the exception stated exactly by RunTiming.ResetDefeatedIff; as the code stands the property is false without it.
- RunTiming.ManageLoopEnds: counts turns that do something; that the scheduler runs the manager, time passes, and a random select does not overlook a ready deadline for ever is not modelled. QUIC is not covered.
- RunHandshake.HandshakeCompletes: shows that the completing steps are possible from every such state; that the scheduler takes them is not modelled.
- Evaluation.DataConserved: exact reals; the rounding of the script's floating-point numbers is not modelled.
- Evaluation.PlotIncreases: asks for non-empty entries whose first start lies before the year 4000.
- ControlService.AnsweredIff: some run answers; a fatal error elsewhere, such as a connection reset during a read or an answer that cannot be written, is a step of the model that this run does not take.
- ControlService.AcceptsAgainIff: TCP control only; a request over UDP brings a handler that goes on to accept TCP connections.
- Frame.FrameRoundTrip: the body is a tree of fields; JSON text, escaping, invalid UTF-8 and case-insensitive keys are not modelled.
- FrameBody.DecodedFromBody: a body, which the program never writes, with the measurement, configuration, data or list key twice is merged by the JSON library; here the last one counts. Numbers are integers.
- ControlPorts.RestartNoHigher: a start on an address of the server, right after the stop; a request in between may take the ports.
- Output.OutputParsesBack: strings with a quote, backslash or control character are excluded; the program's own dates and numbers have none.
- PortScan.CompleteMeansSmallest: no port is freed during start-up, a failed listen means an occupied port, and two unlocked appends never overwrite each other.
- The TLS throughput module: its workers and counters repeat the TCP ones.
- The QUIC server worker: its counting repeats TCP, its error handling depends on the library's strings.
- UDP and multicast control transports beyond their effect on the tokens: they reuse one buffer and one client address across requests.
- Sockets, dialling, TLS and QUIC sessions: reduced to steps that may or may not happen. A fatal error that ends the process may happen at any time in the control plane; in a measurement run it is not modelled.
- Datagram boundaries: UDP bytes are dropped and read in arbitrary amounts.
- The client's request functions: one blocking request and reply.
- Hostname, UUIDs and random ids, clock reading, platform detection, flags, debug prints, plotting, shell scripts.
- The order of first and last timestamps inside a half-finished server iteration.
- The UDP ping client: configuration precedence only.
