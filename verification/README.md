# A verified model of the quote streaming server and its client

The server keeps a registry of subscribers: `receivers` maps an id to a channel and a ticker set,
`tickers_to_receivers` is the inverted index from a ticker to ids. One thread per ticker makes quotes
and fans them out through the index; one thread per subscriber forwards them by UDP; one monitor per
subscriber watches for pings. A client subscribes over a length-prefixed text protocol on TCP, pings
every two seconds and keeps its last ten pings. This project models that behaviour and proves what
the code is meant to guarantee, over every interleaving, every run and every input.

`dafny verify dfyconfig.toml` checks all files.

## How the files fit together

Registry and quotes, as a concurrent step machine:

- `Machine.dfy`: the state and its atomic steps, one per lock-protected section. Request handlers,
  streaming threads, monitors and ticker threads are unbounded in number. `add_receiver` is Lock,
  Check, Insert, Publish; `remove_receiver` is Look, Unmap, Unindex; a ticker round is Price, Store,
  Snap, Open, Visit (one per id), Close, and Purge and Sweep for dead receivers.
- `Lifecycle.dfy`: the invariant of sessions and ticker threads with their pending operations, and
  from it index agreement, the fixed key set and lifecycle safety.
- `Delivery.dfy`: the history invariant behind gap-free delivery, exact fan-out and the price walk.
- `Healing.dfy`: a dead streaming thread is cleaned up by the next round of any of its tickers.
- `Sequential.dfy`: uninterrupted steps add up to the whole operations.
- `Progress.dfy`: a waiting quote can be taken, and is in every infinite run.
- `Service.dfy`: every request can be served and every round completed, from every reachable state.
- `Unregister.dfy`: a flagged session winds down, and can be unregistered from every reachable state.
- `Locks.dfy`: the lock routines as programs under writer-preferring locks; deadlock freedom.
- `Prices.dfy`, `Registry.dfy`: the price walk over reals; the functions that say what one section
  does to the two maps, shared by the machine and the class.
- `Generator.dfy`: the generator as a class with the loops of the source.

Health checks, as timed machines whose clock is an input:

- `Monitor.dfy`: the server's monitor loop, the exact condition of its decision, the time it takes to
  find a dead client, and the survival of a client that keeps pinging.
- `PingLog.dfy`, `PingHistory.dfy`, `GivingUp.dfy`: the client's ring buffer and its two loops as a
  class; the buffer against the full history; when the client gives up, and how long it has waited.

The wire:

- `Text.dfy`, `Utf8.dfy`, `Protocol.dfy`: splitting, decimal numbers, UTF-8, printer and parser.
- `Parsing.dfy`: the accepted texts, their meaning and the errors of all others, exactly.
- `Framing.dfy`: length-prefixed frames over a byte stream.
- `Subscribe.dfy`: the server's request handling and streaming loop over the generator class, and the
  whole handshake.

## Where the code does not keep a promise

Each case is stated as an exact condition, with the failing side proved.

- A command survives printing and parsing exactly when its ticker list is not empty and no ticker
  contains `,` or `|` (`Protocol.RoundTrip`).
- A refusal is 44 bytes longer than the ticker it names, and both sides refuse messages above ten
  million bytes. The client can read a refusal exactly when the ticker leaves that room
  (`Subscribe.EndToEnd`); `Subscribe.RefusalCanBeTooBig` names a request that the server accepts for
  reading and whose answer the client cannot read.
- The client's documentation speaks of 20 seconds without an answer. The code can give up after 18:
  ten pings span nine pauses (`GivingUp.ShutdownSilence`, `GivingUp.ShutdownAfterEighteenSeconds`). The
  20 are kept exactly when late pauses and a late decision make up for a tenth pause
  (`GivingUp.TwentySeconds`); with pauses of two seconds and a silent server they never are
  (`GivingUp.SilentDecision`).
- A session whose thread dies while it is listed stays in `subscribers` for ever, although its
  receiver is cleaned up: exactly those sessions do (`Healing.DeadStaysListed`), and such a death can
  happen on every generator (`Healing.DeathWhileListed`).

A hazard that the server avoids: `add_receiver` overwrites an entry of the same id without clearing its
old index entries. The index stays the inversion exactly when the id is new or its old tickers are
among the new ones (`Generator.AddKeepsInverted`); ids come from a counter and are always new.

## Model

| member | source | states |
|---|---|---|
| Lifecycle.ReachableInv | server/src/generator.rs:199-310 | every reachable state keeps the session and ticker-thread invariant: each id's entries in all maps are determined by where its handler, streaming thread and removers stand |
| Progress.CanStart | server/src/generator.rs:55-114 | for any tickers at any prices from 0.01 up to 100 there is an initial state |
| Lifecycle.IndexAgreement | server/src/generator.rs:255-310 | in every reachable state an index entry is backed by the map or a remover past its map removal is about to clear it, and a registered ticker is indexed unless the id's own adder has not published it |
| Lifecycle.QuiescentIndex | server/src/generator.rs:255-310 | with no add between its two writes and no remove before its last write, the index is exactly the inversion of the receiver map |
| Lifecycle.KeysAreFixed | server/src/generator.rs:94-110 | the index keys equal the price keys and never change in any run, so the tickers of a validated request are still keys when it is published and no key is ever created |
| Lifecycle.LifecycleSafety | server/src/processor.rs:204-289 | a listed subscriber is registered with exactly its tickers and fully indexed, both channel ends exist while it is registered, and a finished or refused session is in none of the three maps |
| Lifecycle.NeverDisconnected | server/src/processor.rs:354-362 | in no reachable state can a streaming loop find its channel disconnected |
| Lifecycle.ClosedMeansDead | server/src/generator.rs:225-234 | in every reachable state the receiving end of a registered receiver is gone exactly when its streaming thread is dead |
| Lifecycle.NeverReappears | server/src/processor.rs:296-372 | once start_streaming returned or the request was refused, the id is in none of the three maps for the rest of every run |
| Delivery.GapFreeDelivery | server/src/processor.rs:325-363 | in every run, what a subscriber took from its channel is, ticker by ticker, a contiguous, ordered, duplicate-free slice of the quotes made, starting at the first quote snapshotted after it was indexed; other tickers contribute nothing |
| Delivery.ChannelConserves | server/src/generator.rs:223-236 | what was taken followed by what is queued is exactly what was sent, in order, while the receiving end exists |
| Delivery.DeliveryComplete | server/src/generator.rs:208-236 | in every reachable state, in the middle of a round too, a registered, indexed subscriber with a live channel has been sent every quote of the ticker since it joined, except the one in flight until its visit |
| Progress.CanTake | server/src/processor.rs:325-342 | whenever an unflagged session is in its loop and a quote waits in its channel, at most two moves of its own thread take the quote at the head of the queue |
| Progress.EventuallyTaken | server/src/processor.rs:325-363 | in every infinite run in which a streaming thread is not flagged, does not die and is never left unmoved for ever, all that was sent to it by any moment has later been taken, in order |
| Delivery.FanOutExact | server/src/generator.rs:213-236 | when the walk ends, the ids sent to are registered subscribers of the ticker, and a registered subscriber was sent to if and only if it was indexed before the round's snapshot |
| Delivery.OneSendPerRound | server/src/generator.rs:224-235 | an id still to be visited in a round has not been sent to in it |
| Delivery.PriceWalk | server/src/generator.rs:158-196 | although price read and write are separate sections, every quote is one walk step from the quote before it, the stored price is the last quote's, and the n-th quote obeys the compound bounds |
| Delivery.QuoteContents | server/src/generator.rs:182-195 | in every reachable state every quote made names its ticker and has a volume from 1000 to 5999 for AAPL, MSFT and TSLA, and from 100 to 1099 for any other |
| Prices.NewPriceIs | server/src/generator.rs:44-51 | the change is a share of the old price, and one cent is the least price |
| Prices.WalkStepExactly | server/src/generator.rs:41-52 | a price can follow another if and only if it is within two per cent of it and at least one cent |
| Prices.WalkStepBounds | server/src/generator.rs:41-52 | one step stays between 0.98 and 1.02 times the old price and never below 0.01 |
| Prices.WalkBounds | server/src/generator.rs:41-52 | after n steps from p0 the price is between max(0.01, p0 * 0.98^n) and p0 * 1.02^n |
| Healing.SelfHealing | server/src/generator.rs:207-243 | if a streaming thread is dead when one of its tickers is between rounds, the id is out of the receivers for good once that ticker completed another round, and out of every index set whenever no ticker thread is in the middle of removing it |
| Healing.StaysGone | server/src/generator.rs:288-310 | a dead receiver that left the map never comes back, and a dead session never enters or leaves `subscribers` |
| Healing.DeadStaysListed | server/src/processor.rs:262-289 | after a thread dies its id stays in `subscribers` for the rest of every run if and only if it died while listed |
| Healing.DeathWhileListed | server/src/processor.rs:204-247 | on any generator and for any request it accepts there is a run in which the first client is added and its thread dies while listed, leaving its id in `subscribers` |
| Healing.CanDie | server/src/processor.rs:296-372 | a streaming thread can die at every point from its start to the removal of its receiver, and its receiving end is dropped with all that is queued |
| Sequential.AddComposes | server/src/generator.rs:261-284 | the sections of add_receiver run in a row register the id with its ticker set, add it to each ticker's index set and change nothing else |
| Sequential.RefusalComposes | server/src/generator.rs:261-266 | the request is refused exactly when some ticker is unknown, and then both maps are as before |
| Sequential.RemoveComposes | server/src/generator.rs:288-310 | the sections of remove_receiver run in a row take the id out of the map and out of the index sets of its tickers, and the session ends |
| Service.RequestCanArrive | server/src/processor.rs:204-217 | in every reachable state a request with any tickers can come in under a new id |
| Service.RequestCanBeServed | server/src/processor.rs:204-252 | from every reachable state a request in progress has a run to its end: with all tickers known the client is listed, registered with exactly these tickers and in exactly their index sets, and otherwise it is in none of the three maps |
| Service.ListedCanStream | server/src/processor.rs:302-323 | a listed client can enter its loop with a running monitor |
| Service.ListedCanLeave | server/src/processor.rs:302-312 | without a socket a listed client has a run to a state in which it is in none of the three maps |
| Service.RoundCanComplete | server/src/generator.rs:199-246 | from every reachable state between rounds a ticker thread has, for each change up to two per cent, each volume in range and each clock reading, a run that makes exactly that quote, sends it to all subscribers and cleans up |
| Service.RoundCanEnd | server/src/generator.rs:199-246 | from every reachable state every ticker thread has a run that ends its round |
| Unregister.ReachableGuards | server/src/processor.rs:219-239 | in every reachable state at most one handler holds the generator mutex, a set shutdown flag means that the session has left its handler and its monitor has ended, a session in its loop has a running monitor or a set flag, and one that has left `subscribers` to be removed has a set flag |
| Unregister.FlagStopsStreaming | server/src/processor.rs:325-363 | after the shutdown flag is set the thread receives at most one more quote, the one it may already wait for, and its monitor has ended |
| Unregister.FlaggedEnds | server/src/processor.rs:325-371 | every move of a flagged session's thread uses up one of at most eight, it has ended when they are used up, and once it has returned the id is in none of the three maps |
| Unregister.FlaggedCanMove | server/src/processor.rs:364-371 | in every reachable state a flagged session whose thread has not ended can move, unless its next section takes a lock that another thread holds; the join never waits |
| Unregister.WalkGoesOn | server/src/generator.rs:223-236 | in every reachable state an open walk can visit another id or close, whatever else is locked |
| Unregister.HolderGoesOn | server/src/generator.rs:261-284 | in every reachable state without an open walk the holder of the generator mutex can take its next step towards releasing it |
| Unregister.LocksFree | server/src/generator.rs:215-309 | from every reachable state some run of the other threads frees all locks and leaves a session that holds none where it is |
| Unregister.FlaggedCanUnregister | server/src/processor.rs:325-371 | from every reachable state, whatever locks are held, a flagged session whose thread is alive has a run to a state in which start_streaming has returned and the id is in none of the three maps |
| Unregister.MonitorCanFlag | server/src/processor.rs:429-446 | a running monitor can give its verdict at any moment, which sets the flag and ends it |
| Unregister.VerdictCanUnregister | server/src/processor.rs:429-446 | from every reachable state with a session in its loop a run leads through its monitor's verdict to a state in which the id is in none of the three maps |
| Unregister.FlaggedUnregisters | server/src/processor.rs:325-371 | in every infinite run that does not leave its thread unmoved for ever, a flagged session ends, and from then on its id is in none of the three maps unless the thread died |
| Unregister.VerdictUnregisters | server/src/processor.rs:325-446 | in every infinite run in which a monitor ends and the thread is not left unmoved for ever, the session ends, and from then on its id is in none of the three maps unless the thread died |
| Locks.RoutinesOrdered | server/src/generator.rs:215-309 | every routine asks for locks only above those it holds, releases only held ones and ends holding none |
| Locks.NoDeadlock | server/src/processor.rs:219-285 | in every reachable state with a waiting thread, a thread that holds a lock or is a waiting writer whose turn has come can move, with waiting writers blocking new readers |
| Locks.EveryRequestCanBeGranted | server/src/processor.rs:219-285 | from every reachable state there is a schedule of grants and releases that completes all routines in progress |
| Locks.EveryRoutineRuns | server/src/generator.rs:215-309 | in every reachable state a new thread can start any routine, and all routines in progress can then be completed |
| Locks.MutualExclusion | server/src/generator.rs:215-309 | in every reachable state two threads hold the same lock only if both hold it for reading |
| Locks.WriterNotOvertaken | server/src/generator.rs:261-304 | no thread is granted a lock for reading while another one waits to write it |
| Locks.Requests | server/src/generator.rs:215-304 | a reader is let in beside other readers when no writer waits, and a writer that finds the lock held starts to wait |
| Locks.AddSections | server/src/generator.rs:261-285 | adding checks and inserts with the mutex and the index held, and publishes under the mutex with the index alone |
| Locks.RemoveSections | server/src/generator.rs:215-309 | removing holds one lock at a time, and the fan-out takes its snapshot and walks under single read guards |
| Locks.ShortSections | server/src/processor.rs:233-283 | price reads and writes, the list of subscribers and the copying of the maps are sections of their own |
| Registry.FirstUnknown | server/src/generator.rs:262-266 | the refusal names the first ticker of the list that the index does not know |
| Generator.QuoteGenerator.constructor | server/src/generator.rs:90-114 | one entry per distinct ticker at a price drawn for it and in range, an index with the same keys and no receiver |
| Generator.QuoteGenerator.AddReceiver | server/src/generator.rs:255-285 | succeeds exactly when every ticker is known; then the id is registered with exactly that set and indexed under each; otherwise nothing changes and the error names the first unknown ticker |
| Generator.QuoteGenerator.IndexReceiver | server/src/generator.rs:279-282 | the loop adds the id to the set of every listed ticker and changes no other set |
| Generator.QuoteGenerator.RemoveReceiver | server/src/generator.rs:288-310 | the id leaves the map and the index sets of its tickers, nothing else changes, an unknown id changes nothing |
| Generator.QuoteGenerator.GenerateQuote | server/src/generator.rs:158-196 | a known ticker's new price is stored and quoted, one walk step from the old price and within two per cent of it and the minimum; an unknown one yields nothing |
| Generator.QuoteGenerator.SendAll | server/src/generator.rs:223-236 | each registered id of the snapshot has the quote at the end of its own channel if that is open, every other channel is as before, and exactly the ids with a closed one are collected |
| Generator.QuoteGenerator.Send | server/src/generator.rs:226-226 | an open channel gets the quote at its end, a closed one fails and nothing changes |
| Generator.QuoteGenerator.FanOut | server/src/generator.rs:213-236 | through the index exactly the channels of all registered subscribers of the ticker get the quote, and exactly those with a closed channel are found dead |
| Generator.QuoteGenerator.Cleanup | server/src/generator.rs:237-243 | an id is registered afterwards if and only if it was and is not dead, with its entry unchanged, and the index stays the inversion |
| Generator.QuoteGenerator.Round | server/src/generator.rs:208-245 | one iteration stores a quote and puts it at the end of every open channel of a subscriber of the ticker and no other; an id is registered afterwards if and only if it was and is no subscriber of the ticker with a closed channel |
| Generator.RemoveKeepsInverted | server/src/generator.rs:288-310 | removing keeps the index the exact inversion of the map |
| Generator.AddKeepsInverted | server/src/generator.rs:252-284 | adding keeps the inversion if and only if no old ticker of a reused id is missing from the new set |
| Generator.RemoveUndoesAdd | server/src/generator.rs:255-310 | for a fresh id, removing after adding restores both maps |
| Text.SplitJoin | server/src/types.rs:127-138 | splitting undoes joining when there is a piece and no piece has the separator |
| Text.JoinSplit | server/src/types.rs:127-159 | joining undoes splitting, for every text |
| Utf8.DecodeEncode | server/src/utils.rs:39-42 | strict decoding undoes encoding for every text |
| Utf8.EncodeDecode | server/src/utils.rs:39-42 | the decoder accepts no bytes other than the encoding of its result |
| Utf8.DecodeFails | server/src/utils.rs:39-42 | bytes are refused if and only if no text encodes to them |
| Utf8.Samples | server/src/utils.rs:39-42 | the encodings of characters of one to four bytes |
| Protocol.IpRoundTrip | server/src/types.rs:134-157 | every IPv4 address parses back from its printed form |
| Protocol.IpCanonical | server/src/types.rs:134-134 | an accepted address is exactly what its value prints as |
| Protocol.PortRoundTrip | server/src/types.rs:135-158 | every port parses back from its printed form |
| Protocol.CommandRoundTrip | server/src/types.rs:124-162 | a command with a non-empty list of clean tickers parses back to itself |
| Protocol.RoundTrip | server/src/types.rs:182-215 | a message parses back to itself if and only if it is an Ack, any Err text, or a command with a non-empty list of tickers free of both separators |
| Protocol.Canonical | server/src/types.rs:126-215 | the printed form of any accepted text is accepted with the same meaning, with no side condition |
| Protocol.CanonicalSize | server/src/types.rs:126-215 | the printed form takes at most as many bytes as any accepted text with the same meaning |
| Parsing.ParsesExactly | server/src/types.rs:124-215 | for every text: an Ack is ACK alone or before a bar, an error is ERR, a bar and its text, a command is CMD, a bar and at least five fields with the two keywords in any case, a printed address, a decimal port and the tickers, and every other text is refused with the error of its first fault |
| Parsing.CommandAccepted | server/src/types.rs:124-148 | a text is accepted as a command if and only if it is made of such fields for that command |
| Parsing.PrintedForm | server/src/types.rs:150-188 | the printed form of each message, word by word |
| Framing.TcpStream.ReadExact | server/src/utils.rs:18-37 | fills the whole buffer with the next bytes however they arrive, or fails at the end of input |
| Framing.TcpStream.ReadTcpMessage | server/src/utils.rs:15-49 | the outcome and the rest of the stream are those of the decoding function, for every byte stream |
| Framing.TcpStream.SendTcpMessage | server/src/processor.rs:173-192 | appends exactly one frame, its length prefix cut to 32 bits |
| Framing.FrameRoundTrip | server/src/utils.rs:15-49 | whatever follows in the stream, a framed message reads back if and only if it survives the text round trip and is at most ten million bytes, and then the rest is untouched; a wrapped length never reads back |
| Framing.StreamRoundTrip | server/src/utils.rs:15-49 | any list of framable messages sent one after the other reads back as that list and leaves any suffix |
| Framing.NoPrefixDecodes | server/src/utils.rs:18-37 | cutting the stream anywhere inside a readable frame makes the read fail with an I/O error |
| Framing.SizeLimit | server/src/utils.rs:28-31 | a read is refused as too big if and only if the declared length is above ten million, and then no byte of the body is consumed |
| Framing.ReadsExactly | server/src/utils.rs:15-49 | by the four length bytes and what follows: too big above ten million, cut short, not the encoding of any text, or the meaning of the text, with what is left in the stream |
| Framing.ShortPrefix | server/src/utils.rs:17-25 | fewer than four bytes are an I/O error |
| Framing.ByteOrder | server/src/utils.rs:28-28 | the four bytes of a length, most significant first |
| Subscribe.Processor.AddSubscriber | server/src/processor.rs:204-252 | a new id is taken in any case; the request succeeds exactly when all tickers are known, then registers exactly that set on a fresh channel; otherwise no map changes |
| Subscribe.Processor.RemoveSubscriber | server/src/processor.rs:262-289 | a listed id leaves all three maps and is signalled, an unlisted one changes nothing |
| Subscribe.Processor.HandleRequest | server/src/processor.rs:139-168 | reads one request, writes exactly the reply that fits it, registers a fresh id exactly when the request is a command with known tickers only, and sends nothing to an unreadable request |
| Subscribe.Processor.StartStreaming | server/src/processor.rs:325-371 | given when the flag is set and what comes in on the session's own channel: what is sent and what stays queued is exactly what was there and came in, in order; the thread idles only on an empty channel and ends exactly at the first turn that finds the flag; then the channel is closed and the id is in none of the three maps; without a socket it ends at once |
| Subscribe.RefusalSize | server/src/processor.rs:154-157 | a refusal takes 44 bytes more than the ticker it names |
| Subscribe.ReplyExactly | server/src/processor.rs:145-164 | no answer to an unreadable request, Ack exactly when all tickers are known, else the text that names the first unknown one, and the fixed error for a message that is no command |
| Subscribe.EndToEnd | client/src/worker.rs:80-152 | over bytes, a framable request is answered Ack exactly when every ticker is known; otherwise the client reads the refusal unchanged exactly when the named ticker leaves room for its 44 bytes |
| Subscribe.RefusalCanBeTooBig | server/src/processor.rs:154-166 | a concrete request within the limit whose refusal is above it, which the client cannot read |
| Subscribe.SubscribeTo | client/src/worker.rs:80-152 | client and server together, for every framable request: the client hears the verdict if and only if every ticker is known or the first unknown one leaves room for the refusal, else that the message is too big; the id is registered with exactly the tickers when all are known, and otherwise no map changes |
| Subscribe.ClientReads | client/src/worker.rs:87-106 | every framable request arrives unchanged, and its verdict is heard or refused as too big exactly by the size of the ticker it names |
| Monitor.MonitorConnection | server/src/processor.rs:379-457 | the loop stops at the first input that flags the client, or never, and has answered every ping before it in order; once datagrams cease and the deadline has passed it has stopped by the bound below |
| Monitor.FlagExactly | server/src/processor.rs:424-449 | an input flags the client if and only if it is a receive timeout, every earlier ping is more than 5 000 ms old and, if there was none, more than 15 000 ms passed since the start |
| Monitor.FirstPingFlag | server/src/processor.rs:439-446 | with no ping before it, whatever the clock does, an input flags the client if and only if it is a receive timeout more than 15 000 ms after the start |
| Monitor.PongsInOrder | server/src/processor.rs:398-413 | one pong with its timestamp for each ping, in order, and none for anything else |
| Monitor.DeadClientBound | server/src/processor.rs:424-449 | once datagrams cease, the client is flagged within one read timeout of the later of the last datagram and the deadline, which is 5 s after the last ping or, with no ping, 15 s after the start |
| Monitor.DeadByAtMost | server/src/processor.rs:424-449 | that is at most 6 s after the last datagram if there was a ping, else at most 16 s after the later of start and last datagram |
| Monitor.TimedSurvival | server/src/processor.rs:388-449 | a client pinging every 2 s, losing no two pings in a row, with twice the sending jitter plus transit at most 1 s and a first ping within 15 s, is never flagged in any run |
| Monitor.SurvivalIsTight | server/src/processor.rs:429-438 | with one more millisecond of transit there is a run that meets all other conditions, no wait longer than the read timeout, and in which the client is flagged |
| PingLog.Worker.RecordPing | client/src/worker.rs:296-303 | the record is appended, after the oldest was dropped from a full buffer, so the buffer still holds the last ten of any history it held the last ten of |
| PingLog.MatchFirst | client/src/worker.rs:219-225 | for every buffer, repeated timestamps included, a pong fills in the first record with its timestamp with the time that passed, or zero if the clock was set back, and changes nothing else |
| PingLog.Worker.MatchPong | client/src/worker.rs:218-225 | the search loop has exactly the effect of the matching function |
| PingLog.Worker.CountUnanswered | client/src/worker.rs:241-241 | the number of records without a round-trip time |
| PingLog.UnansweredIs | client/src/worker.rs:241-241 | it is the size of the set of positions without a round-trip time |
| PingLog.Worker.Loop | client/src/worker.rs:157-312 | both loops, over any interleaving of their events, reach the state of the step function |
| PingHistory.RingRefines | client/src/worker.rs:211-303 | for every event list, whatever the clock does, the buffer is exactly the last ten recorded pings in order, and a record has a round-trip time exactly when a pong for its ping was processed, namely the time to the last one; of equal timestamps a pong is for the oldest buffered ping |
| PingHistory.PingingExactly | client/src/worker.rs:181-206 | pinging has started if and only if a datagram came from the master, whatever strangers sent |
| PingHistory.RttNeverCleared | client/src/worker.rs:211-225 | for every event list, a round-trip time once set stays set while the record of that ping is buffered |
| PingHistory.SteadyClock | client/src/worker.rs:211-225 | when timestamps increase, the pongs for a buffered ping are all pongs with its timestamp processed since it was recorded |
| GivingUp.ShutdownExactly | client/src/worker.rs:236-249 | for every event list, a receive timeout makes the client shut down if and only if ten pings were recorded and none of the last ten was answered |
| GivingUp.OnlyTimeoutsDecide | client/src/worker.rs:172-255 | no event but a receive timeout makes the client shut down, and the decision is never taken back |
| GivingUp.ShutdownSilence | client/src/worker.rs:236-309 | with pauses of at least 2 s the decision implies that the oldest of the ten pings was sent at least 18 s earlier and that no pong for it was processed since |
| GivingUp.TwentySeconds | client/src/worker.rs:236-309 | for any timestamps, a decision comes at least 20 s after the oldest of the ten pings if and only if the lateness of the nine pauses and the time since the last ping together make up a tenth pause; a full pause after the last ping suffices when no pause is short, and is necessary when none is long |
| GivingUp.SilentDecision | client/src/worker.rs:157-309 | when the listener hears nothing after the first datagram and pauses are exactly 2 s, every decision comes between 18 000 and 18 100 ms after the oldest of exactly ten pings, so never after 20 s |
| GivingUp.SilentServer | client/src/worker.rs:157-309 | and it does come: no such client, pinging on time, is still undecided once the clock is past 18 s after its first ping |
| GivingUp.ShutdownAfterEighteenSeconds | client/src/worker.rs:157-309 | a concrete run with every receive timeout of the listener in it, in which the client gives up exactly 18 s after its first ping |

## Left out

- Sockets, thread spawning, logging, command line and file reading: inputs, steps or byte sequences stand for them; failed TCP writes and I/O errors other than an early end of the stream are not modelled.
- The binary encoding of UDP messages: payloads are treated as already decoded values or as undecodable.
- The text form of a stock quote: it is not used on the wire.
- Floating point: prices are reals; volumes, random changes and clock readings are inputs within the stated ranges, and quote timestamps are not claimed to increase.
- The shutdown flag of the ticker threads: no code sets it. A round for a ticker without a price is in the class only, since no thread runs one.
- Ctrl+C and reconnection: an external setting of a shutdown flag and the client's retry sleeps are not steps of the models.
- Panics, except the death of a streaming thread before it starts to unregister.
- Lifecycle.NeverReappears: ids come from an unbounded counter; the wrap-around of the 64-bit one is not modelled.
- Locks.NoDeadlock: the lock routines are modelled as programs of their own and not derived from the machine, which takes a section that opens and closes its lock as one step; for the machine's own guards see Unregister.LocksFree.
- Lifecycle.ReachableInv: each handler's read guard on the index is dropped in the same step as its insertion into the receivers, and a channel is part of its session.
- Unregister.FlaggedUnregisters, Unregister.VerdictUnregisters and Progress.EventuallyTaken: that the scheduler lets the thread move is assumed; Unregister.FlaggedCanMove, Unregister.LocksFree and Progress.CanTake show that it always can be let. A dead thread unregisters nothing; Healing.SelfHealing covers it.
- Generator.QuoteGenerator.SendAll: channels are values in a map under the number each receiver was registered with, so two names for one channel object are excluded by validity rather than by ownership.
- Subscribe.Processor.StartStreaming: when the flag is set and which quotes come in at each turn are inputs, a failed UDP send is not seen, and the join with the monitor takes no part; the machine has the interleaving.
- Subscribe.Processor.AddSubscriber: runs alone; concurrent requests are the machine's subject.
- Subscribe.SubscribeTo: the client's retries after a failed attempt are not modelled.
- PingLog.Worker.Loop: the two threads are interleaved at the granularity of the buffer lock, in an order given by the events.
