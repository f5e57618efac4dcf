# Reliable file transfer over UDP: a verified model

This project models a Go-Back-N file transfer over UDP: one client that cuts
its input into chunks and sends them through a 30-packet window, one server
that writes them, and a network between the two that loses, duplicates,
reorders, truncates and damages packets and delivers packets of other
connections. Everything is proved in Dafny 4.11; `dafny verify dfyconfig.toml`
checks the whole project.

The main results, all of them over every run:

- **End to end** (`Safety`, `ByteNetwork`). The server's output is always a
  prefix of the input, each chunk written once and in order. If the server has
  entered LAST_ACK, the client has entered TIME_WAIT, or either program returns
  `EX_OK`, the output is the whole input. The same holds when the network
  carries serialized buffers, and that network takes the two machines through
  exactly the states the packet network does.
- **No stuck state** (`NoStuckState`, `Witnesses`). Lose everything in transit,
  at any moment of any run on working clocks. The session's own retransmissions still bring both
  sides to a clean end exactly when neither has given up, the handshake ACK of
  an empty input was not among the losses, and the next retransmission comes
  before the watchdogs do and goes to the right address. The way there follows a
  strictly decreasing measure. Explicit runs reach the lost handshake, the late
  retransmission and the wrong address, for every session they can happen in.
- **The edge of the sequence space** (`Wraparound`). The stated limit is tight:
  one chunk more can leave the client idling in transfer with every chunk
  written. For all longer inputs it is proved exactly which ACK does that.
- **Time** (`Watchdog`). Sending N chunks under a watchdog of T seconds, the
  client is in TIME_WAIT or finished within (N + 2) * (1000 T + 250) ms.
- **Error detection** (`ErrorDetection`). Every change confined to two adjacent
  bytes of a built packet is dropped, except a flip between 00 00 and FF FF,
  and so is every proper truncation. Which flips escape is proved at every offset.
- **Every packet** (`ClientRules`, `ServerRules`). For any packet at all, in every
  phase of every reachable state: exactly which ones move a machine, refresh its
  watchdog, are written and are answered, how long each wait lasts, and with
  which code each path ends.
- **The code's own form** (`SenderWindow`, `ClientProcess`, `ServerProcess`,
  `Codec`, `Checksum`). Ring buffer, state loops, packet builder, parser and
  checksum loop are imperative, on fields and arrays updated in place, and each
  is proved to do what the functions behind the results above say. Fed by a run
  of the network, the two objects keep its end-to-end guarantees (`Processes`).

## How it is laid out

| file | content |
|---|---|
| `Wire.dfy` | fixed-width integers, flags, sizes, exit codes, packets |
| `Checksum.dfy`, `Codec.dfy`, `ErrorDetection.dfy` | `calculate_checksum`, `build_packet`, `parse_packet`, and what they detect |
| `Window.dfy` | the sender window as a value, and the 30-slot ring that refines it |
| `Client.dfy`, `Server.dfy` | the two state machines as step functions |
| `ClientRules.dfy`, `ServerRules.dfy` | what each machine does with every packet and at every turn, in the session's numbers |
| `ClientProcess.dfy`, `ServerProcess.dfy` | the same machines as objects with handlers and loops |
| `FastRetransmit.dfy`, `Watchdog.dfy` | the duplicate-ACK counter and the time bound, over all runs of the client |
| `Network.dfy`, `Invariant.dfy`, `Safety.dfy` | the system, its inductive invariant, the safety results |
| `ByteNetwork.dfy` | the system over buffers |
| `Processes.dfy` | the two objects in one run of the network |
| `Clocks.dfy`, `Continuation.dfy`, `Progress.dfy`, `Restart.dfy` | timers, and how a session goes on from its own retransmissions |
| `Stuck.dfy`, `NoStuckState.dfy`, `Witnesses.dfy` | when it cannot, the exact condition, and runs that reach each case |
| `Wraparound.dfy` | inputs beyond the sequence-number limit |

A step of a machine is the code between two waits: a *head* runs up to the call
of `wait_for_packet`, a *tail* from its return to the next head. This split
matters: an answer to a packet sent in one call of a handler can arrive in the
wait of that same call. The network is two sets of packets. A delivery leaves
the packet in its set, so that duplication and reordering need no step of their
own, and a loss removes any packets. The invariant speaks of every packet in
the sets, hence, in a run that loses nothing, of every packet ever sent to its
peer.

Each machine stores the address it sends to, and every received datagram
replaces it, a dropped one too. What is sent to any other address is lost.

The clock, the stop signal, failing reads, writes and sends, and what arrives
are inputs of each step; the safety results hold for every clock, failing ones
included. The two initial sequence numbers are any values below
10000, the connection id is any value in 1..60000, and the input is any
sequence of chunks of 1 to 1185 bytes, so nothing depends on how reads split it.

## Where the code and its description differ, or the code surprises

The model follows the code.

- The description lists what counts as progress (`README.md:134`); the server
  also marks progress for DATA ahead of the expected number (`src/server.c:380`).
- The description says that a session without progress exits with a non-zero
  code (`README.md:140`). In LAST_ACK it depends on where the watchdog is
  noticed: before the wait the code is `EX_PROTOCOL` (`src/server.c:420`), after
  it `EX_OK` (`src/server.c:429`). Either way the file is complete.
- The DATA packet that opens ESTABLISHED implicitly is neither written nor
  counted (`src/server.c:264`); the client's retransmission delivers it again.
- With an empty input and a lost handshake ACK the server can never leave
  HANDSHAKE but by its watchdog: the ACK is not resent and that state has no
  FIN branch (`src/server.c:230`).
- The client's socket is not connected, and every `recv_packet` overwrites the
  address that later sends use (`src/client.c:322`, `src/utils.c:231`). After a
  stray datagram from elsewhere the client's packets go to its sender until the
  server is heard again, and outside LAST_ACK the server speaks only when spoken
  to. `StrayDatagramStrands` shows the state; the output stays a prefix.
- A watchdog that has run out is noticed only at certain points. A server blocked
  in its wait is still saved by the chunk it expects (`LateServerIsSaved`).
- Wraparound is unsupported (`README.md:224`). `NoWraparound` shows that
  2^32 - 10031 chunks are safe. With one more, and the largest initial number, an
  ACK for a whole last window of 30 leaves the client where no fill runs and end
  of input is never seen (`BoundIsTight`); any other last ACK does not
  (`JamsExactly`).

## Model

| member | source | states |
|---|---|---|
| `Safety.OutputIsPrefix` | `src/server.c:354-396` | in every reachable state the output is a prefix of the input, and until FIN is accepted it is exactly the chunks below the server's counter, each once and in order |
| `Safety.CleanCompletion` | `src/server.c:329-349` | LAST_ACK, TIME_WAIT, or an `EX_OK` exit of either program, over all exit paths, implies that the output is the whole input |
| `Safety.ReturnCodes` | `src/client.c:603-612` | for both programs: 0 exactly if the machine ended with 0 and file and socket could be closed; 71 if the socket could not, else 74 if the file could not |
| `NoStuckState.CompleteReturns` | `src/server.c:587-599` | after a complete session both programs return 0 exactly if their files can be closed |
| `Safety.GoBackN` | `src/client.c:257-357` | during transfer base <= the server's counter <= next <= base + 30; no ACK in transit exceeds the counter; DATA numbered s carries chunk s and was sent |
| `Safety.HandshakeAgreement` | `src/client.c:192-210` | past SYN_SENT both sides agree on connection id and both initial numbers; the server is in ESTABLISHED or LAST_ACK only if the client took its SYN+ACK |
| `Safety.PhaseSeparation` | `src/server.c:486-493` | the ACK that closes a session was sent by a client that had accepted FIN+ACK; a delayed handshake ACK is never mistaken for it |
| `Safety.LastAckExits` | `src/server.c:416-497` | every way out of LAST_ACK with its exit code, each with a complete output; a received packet ends the phase as the client's answer to FIN+ACK, or when its own answer cannot be sent |
| `Safety.NoWraparound` | `README.md:224` | with at most 2^32 - 10031 chunks every 32-bit sum over the session's own numbers, base + 30 included, equals its unbounded value in every reachable state, and every comparison made with a foreign number plus one agrees with its unbounded reading |
| `Wraparound.BoundIsTight` | `src/window.c:86` | for every session whose last chunk is numbered 2^32 - 31, which under the largest initial number is one chunk more than the limit: an ordinary run reaches a state from which no run completes, every chunk being written |
| `Wraparound.JammedForever` | `src/window.c:86` | past the edge without end of input seen, the client stays in transfer or fails, whatever arrives |
| `Wraparound.WedgedUntilWatchdog` | `src/client.c:257-292` | with everything acknowledged it idles there no longer than its watchdog and one 10 ms wait, and then fails |
| `Wraparound.JamsExactly` | `src/window.c:86-98` | for inputs of that length and longer, in every run: the ACK that takes base across 2^32 - 30 jams the client if and only if base + 30 was not beyond the last chunk before it |
| `Wraparound.AlwaysJams` | `src/window.c:86` | once the number after the last chunk is 2^32 - 1 or more, that always happens |
| `Invariant.StepKeeps` | `src/client.c:547-603` | every step of client, server and network keeps the invariant that ties window, counter, output and every packet in transit together |
| `Invariant.RunKeeps` | `src/client.c:547-603` | so does every run |
| `Invariant.ClientTailMoves` | `src/client.c:311-356` | whatever the client is handed, what it sends back is a packet of this session and it only moves forward |
| `Invariant.TransferHeadMoves` | `src/client.c:257-309` | a turn of the transfer loop sends only DATA of its own chunks, below next, and enters FIN_WAIT only when all is acknowledged |
| `Invariant.ReceiveDataMoves` | `src/server.c:354-396` | for any DATA packet, and any short write, the output stays a prefix and the counter advances only past a chunk written in full |
| `Invariant.ServerReceiveMoves` | `src/server.c:151-494` | the same for any packet in any phase: SYN, ACK, DATA, FIN, stale or foreign |
| `Invariant.WrittenSoFar` | `src/server.c:360-370` | writing the expected chunk extends the output to the next prefix; a partial write still leaves a prefix |
| `ByteNetwork.EndToEnd` | `src/protocol.c:51-107` | prefix and completion hold over a network of buffers that may truncate any copy or damage two adjacent bytes of it |
| `ByteNetwork.StepRefines` | `src/utils.c:222-242` | every step over buffers is a step over packets: a damaged copy is received as nothing |
| `ByteNetwork.DeliveredIsSent` | `src/utils.c:222-242` | a delivered buffer is dropped or read as a packet that is in transit |
| `ByteNetwork.StepIsMirrored` | `src/utils.c:208-220` | every step over packets is a step over intact buffers |
| `ByteNetwork.SameBehaviours` | `src/utils.c:208-242` | the two networks take client and server through exactly the same states |
| `NoStuckState.NoStuckStates` | `src/client.c:257-357` | from any reachable state with everything in transit lost, undisturbed retransmissions can bring the session to a clean end with output equal to input if and only if neither side has given up, there is data to send or the handshake ACK was not lost, and the next packet comes in time and goes to the peer |
| `NoStuckState.TransferInTime` | `src/client.c:258-311` | the same for a client waiting in transfer, spelt out: its watchdog outlasts its timer, it sends to its peer, and the server comes to its next packet, or lasts a turn longer where that packet can only be a copy |
| `NoStuckState.RunsToTheEnd` | `src/client.c:496-508` | before the client has its FIN+ACK, a session in time needs at most 250 ms and the TIME_WAIT period |
| `Stuck.StallsForever` | `src/server.c:230-273` | once the handshake ACK of an empty input is lost, no run whatsoever completes |
| `NoStuckState.ServerFinishes` | `src/server.c:428-449` | a server left alone in LAST_ACK, in its wait or with time left, can end with `EX_OK`, whoever its answers go to |
| `NoStuckState.Unfinishable` | `src/utils.c:154-166` | where one of the conditions fails, no undisturbed continuation completes the session |
| `Stuck.HopelessRun` | `src/client.c:147-151` | each way to fail is kept by every undisturbed step: a watchdog that is met next, a silent client, a client without its peer's address, a server that only answers, an orphaned client |
| `Witnesses.EmptyInputCanHang` | `src/server.c:230-273` | every session with an empty input has a run in which only the lost handshake ACK stands in the way |
| `Witnesses.TransferCanBeLate` | `src/client.c:258-303` | every other session has a run in which only the client's watchdog does |
| `Witnesses.StrayDatagramStrands` | `src/client.c:322` | every other session has a run that could complete until one datagram from a stranger arrives, and then cannot |
| `Witnesses.LateServerIsSaved` | `src/server.c:307-374` | a blocked server whose watchdog has run out can still complete |
| `Progress.Flow` | `src/window.c:32-45` | once retransmissions are in flight, deliveries alone take the session to TIME_WAIT and DONE at one instant |
| `Progress.FlowStep` | `src/client.c:257-357` | each stretch strictly decreases the measure (phases, unacknowledged, unwritten, turn) |
| `Progress.FromHandshaking` | `src/server.c:232-259` | a retransmitted SYN draws another SYN+ACK and that the handshake ACK |
| `Progress.FromTransferData` | `src/server.c:264-272` | a DATA packet opens ESTABLISHED implicitly or is written, and the session is closer to its end |
| `Restart.RestartByClient` | `src/client.c:293-309` | the client's next packet, at most 250 ms away, puts everything still needed in flight again |
| `Restart.RestartNewData` | `src/client.c:341-350` | with new chunks to send it does so at once: the server's answers to them point at the gap, and the third duplicate resends the window |
| `Restart.RestartByServer` | `src/server.c:428-449` | so does the next FIN+ACK of a server in LAST_ACK, even for a client that has lost its peer's address |
| `Progress.TransferTurn` | `src/client.c:264-309` | with no read failing, a turn leaves for FIN_WAIT with nothing pending, retransmits the whole window if its timer ran out, or waits for the timer |
| `Clocks.ClockRunKeeps` | `src/client.c:293-309` | in every run timers lie in the past while running, and a waiting client wakes exactly 250 ms after its timer was started |
| `Watchdog.ClientTimeBound` | `src/utils.c:154-166` | until TIME_WAIT or DONE the client is never older than (N + 2) * (1000 T + 250) ms, whatever arrives or does not |
| `Watchdog.TailProgress` | `src/client.c:330-339` | the only marks of progress are SYN+ACK and an ACK that moves base, and each advances the stage |
| `Watchdog.ProgressMarks` | `src/client.c:200-503` | for every client step: the watchdog is refreshed if and only if SYN+ACK or FIN+ACK is accepted, base moves, or FIN+ACK is answered again, and the clock can be read |
| `Watchdog.WatchdogRule` | `src/utils.c:154-166` | when it has run out, for all 64-bit readings, failed and reversed ones included |
| `Watchdog.TimerRule` | `src/client.c:293-309` | when the window is resent and how long the wait is, for all such readings |
| `FastRetransmit.FastRetransmitDetector` | `src/client.c:330-355` | over every history the duplicate counter is the trailing run of equal non-advancing ACKs modulo 3, and the whole window is resent exactly when that run reaches a multiple of 3 |
| `FastRetransmit.TrailingRunMeaning` | `src/client.c:341-354` | that run is the longest suffix of equal non-advancing ACKs |
| `ClientMachine.ClientStepKeeps` | `src/client.c:521-601` | every client step, for any packet and any clock, keeps the window holding its chunks and the rest of the input unread |
| `ClientMachine.RefillKeeps` | `src/client.c:264-283` | a fill sends the next chunks under the next numbers and ends with a failed read, end of input, or exactly 30 pending |
| `ClientMachine.IdleWaitUnreachable` | `src/client.c:289-292` | hence the 10 ms idle wait is never taken |
| `ClientMachine.TransferHeadSends` | `src/client.c:300-303` | a retransmission emits exactly packets base .. next - 1, in order and equal to the originals |
| `ClientMachine.OnAckMoves` | `src/client.c:326-356` | base follows an ACK in (base, next], and then and only then the watchdog is refreshed |
| `SenderWindow.FillSends` | `src/window.c:86-138` | a fill consumes the input from the front, chunk by chunk, under consecutive numbers |
| `SenderWindow.FillFacts` | `src/window.c:86-140` | what is pending grows by what was sent, and the loop stops only at end of input, at a failed read, or at 30 pending |
| `SenderWindow.FillEnds` | `src/window.c:86-98` | which of the three ends a fill has, as an if and only if each, and that it makes no read after the failing one |
| `SenderWindow.FillGuard` | `src/window.c:86` | the 32-bit guard agrees with its unbounded reading exactly below 2^32 - 30; from there on nothing is read |
| `SenderWindow.ProcessAckFacts` | `src/window.c:52-76` | the function reports progress exactly when base moves, then to the acknowledged number, and forgets exactly the acknowledged packets |
| `SenderWindow.RingSlotsDiffer` | `src/window.c:87` | two numbers fewer than 30 apart never share a slot |
| `SenderWindow.InputStream.ReadChunk` | `src/utils.c:180-194` | the next chunk, 0 at end of input, or an error that consumes nothing |
| `SenderWindow.GBNSenderState.constructor` | `src/client.c:248-250` | an empty window at the first number, every slot free |
| `SenderWindow.GBNSenderState.Store` | `src/window.c:123-124` | filling a slot touches no packet still waiting for its acknowledgement |
| `SenderWindow.GBNSenderState.Push` | `src/window.c:108-137` | one round of the fill loop appends its packet to the window |
| `SenderWindow.GBNSenderState.FillAndSend` | `src/window.c:78-141` | the loop over the ring does to ring, input and network what the fill of an unbounded window does, with the same result code |
| `SenderWindow.GBNSenderState.Release` | `src/window.c:59-69` | the loop clears exactly the slots of base .. ack - 1, and always reports progress |
| `SenderWindow.GBNSenderState.Acknowledge` | `src/window.c:52-76` | the ring refines the sliding of the window, with the same progress flag |
| `SenderWindow.GBNSenderState.Retransmit` | `src/window.c:18-50` | the loop sends exactly the pending packets in order; its validity test skips none |
| `ServerRules.InListen` | `src/server.c:151-177` | for any packet whatsoever: a SYN, and nothing else, starts the session, with what is answered, refreshed and drawn |
| `ServerRules.InHandshake` | `src/server.c:230-273` | for any packet whatsoever: ESTABLISHED is entered, and the watchdog refreshed, if and only if it is the handshake ACK or DATA under the client's first number; SYN+ACK goes out only for the session's own SYN; nothing is written |
| `ServerRules.HandshakeEnds` | `src/server.c:247-272` | of the packets that can arrive, those are the client's ACK and its first chunk |
| `ServerRules.InEstablished` | `src/server.c:327-399` | for any packet whatsoever: what is written, counted, refreshed and answered, and each way out with its code |
| `ServerRules.InLastAck` | `src/server.c:466-496` | for any packet whatsoever: the closing ACK carries the number past FIN, and FIN again is answered again |
| `ServerRules.WithoutPacket` | `src/server.c:426-458` | a wait that ends without a packet, in every phase: exit code, FIN+ACK again, stored address |
| `ServerRules.BeforeWait` | `src/server.c:120-127` | the head of every handler: stop request, watchdog, or a wait of exactly 250 ms |
| `ClientRules.InSynSent` | `src/client.c:192-212` | for any packet whatsoever: SYN+ACK for the client's own number, and nothing else, opens the session, refreshes the watchdog and is answered |
| `ClientRules.InTransferLoop` | `src/client.c:326-356` | for any packet whatsoever: only an ACK of this connection has an effect |
| `ClientRules.AckRule` | `src/client.c:328-355` | which is: base, timer, watchdog, duplicate count and resending, each exactly |
| `ClientRules.InFinWait` | `src/client.c:428-449` | for any packet whatsoever: only FIN+ACK for this session's FIN ends it, refreshes the watchdog and is answered |
| `ClientRules.InTimeWait` | `src/client.c:494-511` | for any packet whatsoever: only that FIN+ACK is answered again |
| `ClientRules.ClientWithoutPacket` | `src/client.c:156-185` | a wait that ends without a packet, in every phase: exit code, SYN again, stored address |
| `ClientRules.ClientBeforeWait` | `src/client.c:547-555` | the head of every handler outside the transfer loop: stop request, watchdog, SYN, FIN, and waits of exactly 250 ms or 5 s |
| `ClientRules.TransferLoopTurn` | `src/client.c:257-311` | a turn of the transfer loop: when it leaves, gives up with which code, resends, or waits until 250 ms after the timer was started, and all it sends |
| `ClientRules.WaitsExactly` | `src/client.c:153-476` | in every run on working clocks each wait ends exactly 250 ms, or 5 s in TIME_WAIT, after it or its timer began |
| `ClientRules.TimeWaitLasts` | `src/client.c:476-488` | a client leaves TIME_WAIT well only on a stop request or after a last wait of 5 s, whatever arrived before |
| `ClientProcess.RingHoldsChunks` | `src/window.c:86-138` | after any history slot s % 30 holds header and chunk s and is marked for every s in the window, and no other slot is |
| `ClientProcess.TurnsAreSteps` | `src/client.c:547-603` | whatever the client object does over its turns is a run of the step function |
| `ClientProcess.ClientLoop.constructor` | `src/client.c:530-543` | the state in which the client starts |
| `ClientProcess.ClientLoop.HandleClosed` | `src/client.c:101-128` | refines the step function: draws the first number, sends SYN |
| `ClientProcess.ClientLoop.HandleSynSent` | `src/client.c:144-213` | refines it: SYN+ACK is answered, a timeout resends SYN, the watchdog gives up |
| `ClientProcess.ClientLoop.EnterEstablished` | `src/client.c:242-255` | refines it: a fresh ring and counters |
| `ClientProcess.ClientLoop.SendAndCheckTimer` | `src/client.c:257-309` | refines it on the ring: leaves, gives up, fills, retransmits or waits |
| `ClientProcess.ClientLoop.TakeAck` | `src/client.c:326-356` | refines it on the ring: slides the window or counts duplicates |
| `ClientProcess.ClientLoop.TransferTurn` | `src/client.c:257-357` | refines it: one turn of the transfer loop |
| `ClientProcess.ClientLoop.HandleFinWait` | `src/client.c:378-450` | refines it: FIN each turn, FIN+ACK accepted only under the right number |
| `ClientProcess.ClientLoop.HandleTimeWait` | `src/client.c:465-512` | refines it: FIN+ACK is answered again, silence ends the client |
| `ClientProcess.ClientLoop.RunClient` | `src/client.c:521-603` | the state loop, for any sequence of surroundings, does what that many turns of the step function do, and sends the same packets |
| `ClientProcess.ClientLoop.Close` | `src/client.c:603-612` | the code the program returns: 0 exactly if all went well |
| `ServerProcess.ServerLoop.constructor` | `src/server.c:520-525` | the state in which the server starts |
| `ServerProcess.ServerLoop.HandleListen` | `src/server.c:109-178` | refines the server's step function: SYN is answered, anything else ignored |
| `ServerProcess.ServerLoop.HandleHandshake` | `src/server.c:194-274` | refines it: SYN again, the ACK, or implicit acceptance on DATA |
| `ServerProcess.ServerLoop.TakeData` | `src/server.c:354-397` | refines it: writes the expected chunk only, always acknowledges the counter |
| `ServerProcess.ServerLoop.HandleEstablished` | `src/server.c:293-400` | refines it: FIN under the expected number, DATA of this connection |
| `ServerProcess.ServerLoop.HandleLastAck` | `src/server.c:416-497` | refines it, with the exit code of every path |
| `ServerProcess.ServerLoop.RunServer` | `src/server.c:541-585` | the state loop does what that many turns of the step function do, and sends the same packets |
| `ServerProcess.ServerLoop.Close` | `src/server.c:587-599` | the code the program returns: 0 exactly if all went well |
| `Processes.ClientIsFed` | `src/client.c:547-603` | over every run of the network the client object, fed turn by turn what the run hands it, is in the run's state and has sent the run's packets |
| `Processes.ServerIsFed` | `src/server.c:541-585` | so is the server object |
| `Processes.InTransitWasSent` | `src/utils.c:208-242` | what the run hands either object was sent by the other |
| `Processes.ObjectsDeliver` | `src/server.c:354-396` | the server object's file is a prefix of the input in every run, and the whole input once either object ends well |
| `Processes.RunSession` | `src/client.c:521-612` | `run_client` and `run_server` over one run of the network keep these guarantees, and whichever returns 0 leaves a complete file |
| `Checksum.CalculateChecksum` | `src/utils.c:58-100` | the fold-as-you-go loop never exceeds 16 bits after a fold and returns the complement of the one's complement sum, for even and odd lengths |
| `Checksum.ChecksumMeaning` | `src/utils.c:58-100` | that sum is congruent to the word sum modulo 65535, and zero only for all-zero data (section 1 of RFC 1071) |
| `Checksum.OnesSumIsCanonical` | `src/utils.c:67-94` | hence it depends on the plain word sum alone |
| `Codec.ParseSerialize` | `src/protocol.c:18-124` | parsing a built packet gives back every field and the payload |
| `Codec.SerializeParse` | `src/protocol.c:51-124` | rebuilding any accepted buffer of exact length gives it back byte for byte |
| `Codec.SerializeInjective` | `src/protocol.c:18-49` | different packets never share a wire image |
| `Codec.ReceiverCheck` | `src/protocol.c:69-82` | clear, recompute and compare accepts exactly the buffers whose full sum is FFFF, less those whose field is FFFF over a rest that already sums to FFFF |
| `Codec.LayoutFields` | `src/protocol.c:22-39` | reading a field where it was laid out gives it back |
| `Codec.WireImage` | `src/protocol.c:18-49` | the bytes on the wire: each field at its offset as big-endian arithmetic on single bytes, the checksum the complement of the sum over the rest, the payload from 15 on |
| `Codec.ParsedFields` | `src/protocol.c:84-121` | what is read back from an accepted buffer, byte by byte in the same arithmetic |
| `Codec.BuildPacket` | `src/protocol.c:18-49` | writes exactly the wire image into the caller's buffer, its header bytes spelt out, and nothing beyond it |
| `Codec.CheckIntegrity` | `src/protocol.c:66-82` | works on a scratch copy: the input is left alone |
| `Codec.ParsePacket` | `src/protocol.c:51-124` | accepts exactly the well-formed buffers, fills the out-parameters from the header bytes, and touches the payload buffer only on success |
| `ErrorDetection.DamageIsDetected` | `src/protocol.c:69-82` | every change confined to two adjacent bytes, across word boundaries too, is dropped, unless it is a flip between 00 00 and FF FF |
| `ErrorDetection.PayloadFlipEscapes` | `src/utils.c:67-99` | the exception is real: such a flip in the payload is accepted, always, as another payload |
| `ErrorDetection.FlipEscapes` | `src/protocol.c:69-107` | which flips are accepted, at every offset, header and checksum field included, as an if and only if |
| `ErrorDetection.AcceptedBuffers` | `src/protocol.c:56-107` | which buffers are accepted, in plain arithmetic: 15 to 1200 bytes, a length field that fits, a word sum divisible by 65535, and FFFF in the checksum field exactly over all-zero data |
| `ErrorDetection.TruncationIsDetected` | `src/protocol.c:56-107` | every proper truncation is dropped |
| `ErrorDetection.CarriedCopy` | `src/protocol.c:51-124` | so a receiver sees the packet that was sent, or nothing |

## Left out

- NoStuckStates: both clocks start above zero and never fail. The continuation is read off one clock, a wait may return late, and a packet may be delivered more than once, as the network allows. Packets of other connections do not take part in it.
- ClientTimeBound: takes computation to be instantaneous and waits to return on time, as a bound must; `TIME_WAIT` itself has none, since any packet restarts its 5 s.
- TransferHeadSends: the model counts a data packet as sent even when `send_packet` fails, as the code only prints a message; such a failure is a loss.
- An upper time bound for the server: DATA ahead of its counter refreshes its watchdog.
- Sockets, `select`, name resolution: replaced by the network steps. Of an address the model keeps whether it is the other party's. A packet sent to any other address is lost; that a stranger might pass it on is not modelled.
- Opening and closing files, stdio buffering, messages: only the effect of a failed close on the exit code is kept (`ClientExit`, `ServerExit`).
- Signal handlers and the random generator: a stop request may be seen at the head of any turn of a state loop, and the drawn numbers are parameters of the session.
- Command-line parsing and `main`. A watchdog setting of zero or less, which the parser refuses, is kept in the step functions and excluded only where time is bounded.
- Several clients: one client and one server. Packets of other connections are delivered to either side at any time, except a foreign SYN in LISTEN and a foreign SYN+ACK.
- Clock readings are unbounded; a difference of two is taken as the 64-bit one. A reading of 0, the failed clock, may occur at any time in the safety results and never in those about time and progress.
- Reads of the clock within one head or tail yield one value.
- `fill_header` and the header structs reused between packets: packets are values built where they are sent.
- Throughput, window tuning, the test suite.
