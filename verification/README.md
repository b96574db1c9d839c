# Verification of the BRAHMS core

BRAHMS runs a system of processes in several "voices" and passes data between them. This project models the parts of
it whose correctness no single function shows, and proves what they are for:

- **The inter-voice channel.** Two ends, each with a client, a sender thread, a receiver thread and one deliverer
  thread per stream, and a back-pressure protocol between them (`Messages`, `ChannelModel`, `Ledger`,
  `ChannelInvariant`, `ChannelRuns`, `ChannelTheorems`, `ChannelDecisions`, `ChannelReading`, `Progress`,
  `SenderReach`, `Overrun`, `OverrunLimits`, `Shutdown`). A step of the transition
  system is what one thread does under one mutex; a run interleaves the steps of both ends in any order. `Fifo`,
  `DelivererCode` and `ChannelCode` are the objects themselves, every method tied to the steps it makes.
  `ChannelClient` is the client's waiting `pull` and the open/closed state, `Ownership` who releases a message,
  `Framing` how messages survive partial sends and receives, `Ports` which port a channel uses.
- **Array and stream kernels** that refine a mathematical meaning: the in-place reload of the Mersenne Twister
  (`TwisterWords`, `MersenneTwister`, `TwisterSeeding`), the odometer of `index` (`IndexNumeric`), the block copies of `cat` (`Cat`;
  `NumericTypes` has the types of both), the rolling queues of the IIR filter (`Filter`), and the strided,
  double-buffered ring benchmark (`Ring`).
- **DataML text**: numeric arrays, dimensions and field names are printed into a node and scanned back
  (`DataMLNumeric`, `DataMLStructure`, `DataMLFields`).

What is found on the way:

- The estimate of a stream can run past PushDataMaxItems by one more than the deepest backlog: `push` releases the
  audits mutex between its check and its enqueue. In items and in bytes, a push that passes its check can break the
  bound without the extra one if and only if with it more is committed than the limit and the deepest backlog, and what
  the sender thread can still come to takes the estimate past the limit (`Overrun.OverrunExactly`); in items, if and
  only if the estimate is at its limit, the backlog at its deepest, and the sender thread can still come to one of the
  stream's messages (`Overrun.OverrunItemsExactly`). With the limits alone: in items that bound holds of every run if
  and only if PushDataMaxBytes is less than PushDataMaxItems headers (`OverrunLimits.SharperBoundExactly`), so not with
  1000 items and 32 MB, the defaults (framework/public/brahms.xml:55-56); in bytes it does with no limits
  (`OverrunLimits.SharperBoundFailsInBytes`).
- `flushed` is never cleared, and any FLUSH sets it. A flush keeps its promise if and only if there is nothing to send
  among what it does not wait for: all that is pending, once `flushed` is set; what is queued behind an earlier FLUSH
  that the sender thread comes to, before (`Shutdown.FlushPromise`, `Shutdown.SecondFlushBreaks`).
- `close` pushes its GOODBYE under the mutex and marks the channel closed after it: a message pushed in between is
  taken behind the GOODBYE and is never sent (`ChannelClient.TakenBehindGoodbye`, `ChannelClient.GoodbyeIsLast`,
  `Shutdown.SentUpToGoodbye`).
- A shape of one element, by the 64-bit count, is written without its attribute and comes back as [1]: dimensions
  survive if and only if that count is not 1 and every size is below 2^32, or they are [1]
  (`DataMLStructure.ShapeSurvives`, `DataMLStructure.WrappedShapeDoesNotSurvive`).
- `hasField` finds a tag with semicolons if its parts stand next to each other in the list of names; for tags without
  semicolon it is membership (`DataMLFields.HasFieldExactly`, `DataMLFields.FoundButNoField`).
- `cat` and `index` take complex inputs, but move as many values as real ones would have: `cat` concatenates and
  writes every byte if and only if the elements are real or there are no bytes (`Cat.ConcatenatesExactly`,
  `Cat.WrittenExactly`). `index` also takes booleans, which its service refuses, empty arrays included: it indexes if
  and only if the elements are not boolean, and they are real or there are none (`IndexNumeric.IndexesExactly`,
  `IndexNumeric.BooleansRefused`). Of elements whose parts are stored one after the other the real parts arrive.
- A distinct wire port for every channel needs no more than 65536 pairs of voices: a socket address keeps 16 bits of
  the port (`Ports.WirePortsExactly`).

Conventions. A `class` has the fields that the source updates; `Valid` is its invariant. A value that stands for one
end of the channel is an `End`, and `State()` of an object is the `End` or `Deliverer` it stands for. `hide` in a proof
keeps definitions out of it that it does not need.

## Model

| member | source | states |
|---|---|---|
| ChannelTheorems.Conservation | framework/channel/sockets/sockets-receiver.cpp:240-284 | in every run, per stream, in items and in bytes: the sender's estimate is what is charged and being sent, on the wire, in the receiver's hands, queued at the deliverer, taken there but not reported, reported in replies not yet credited, or dropped after stop |
| ChannelTheorems.CreditIsCovered | framework/channel/sockets/sockets-receiver.cpp:245-252 | a USEDDATA being handled never takes more from the estimate than is in it: neither the checked nor the two unchecked subtractions go below zero |
| ChannelTheorems.NoInternalError | framework/channel/sockets/sockets-receiver.cpp:115-136 | no run reaches a routing table overflow, an audit index or arithmetic overflow, a size mismatch after inflating, or out-of-order delivery |
| ChannelTheorems.EmptyAuditHasNoBytes | framework/channel/sockets/sockets-receiver.cpp:261-277 | a deliverer with no items to report has no bytes either, so nothing is lost when a query gets no reply |
| ChannelTheorems.InOrderDelivery | framework/channel/deliverer.cpp:96-150 | what a stream's handler has been given is a prefix of what `push` accepted for it, content and number, and all of it when nothing is under way and nothing was dropped |
| ChannelTheorems.OrderCheckPasses | framework/channel/deliverer.cpp:122-135 | the message a deliverer is about to take has the number it expects, which is how many it has delivered |
| ChannelTheorems.QueryAccounting | framework/channel/sockets/sockets-sender.cpp:136-150 | the count of unaccounted queries is the queries under way, the replies under way and the queries that met an empty audit; it never goes below zero |
| ChannelTheorems.UnansweredSilencesSender | framework/channel/sockets/sockets-sender.cpp:136-150 | after one unanswered query of a stream the sender thread never asks about it again, in any continuation of the run |
| ChannelDecisions.RefusedExactly | framework/channel/sockets/sockets.cpp:327-353 | a push is refused, with one query queued and counted, if and only if the estimate is past a limit in the run phase; an accepted one changes nothing before its enqueue |
| ChannelDecisions.AsksExactly | framework/channel/sockets/sockets-sender.cpp:119-150 | in every run a PUSHDATA is charged to its stream alone, and a query is queued, and counted, if and only if twice the items or twice the bytes then come to the limit and no query of the stream is out |
| ChannelDecisions.HalfWayIsAsked | framework/channel/sockets/sockets-sender.cpp:131-150 | in every run, whenever a charge has brought a stream half way to a limit, a query of it is on its way, being answered, answered on its way back, or was left unanswered |
| ChannelDecisions.KnownExactly | framework/channel/sockets/sockets-sender.cpp:110-117 | in every run the streams with an estimate are those up to the last OUTPUTFOUND that the sender thread has handled |
| ChannelDecisions.SentInWireForm | framework/channel/sockets/sockets-sender.cpp:155-201 | in every run, what has been written is compressed if and only if it is PUSHDATA and the channel compresses; the header has the uncompressed size |
| ChannelDecisions.AnswersExactly | framework/channel/sockets/sockets-receiver.cpp:261-284 | a query takes the audit of its deliverer, and is answered with all of it if and only if it has an item; otherwise it is left unanswered |
| ChannelDecisions.ErrorsExactly | framework/channel/sockets/sockets-receiver.cpp:112-344 | each internal error is raised exactly by its own condition, in either thread |
| ChannelDecisions.CancelIsFinal | framework/channel/deliverer.cpp:136-148 | a handler that answers C_CANCEL has been given that message and, in any continuation, no other |
| ChannelDecisions.DeliversUntilStopped | framework/channel/deliverer.cpp:88-150 | in any run of a healthy channel a deliverer that is in its loop stays there until it is told to stop or its handler cancels |
| ChannelReading.InboxIsWhatWasRead | framework/channel/sockets/sockets-receiver.cpp:219-360 | in every run the client has been passed, in order, exactly the messages dispatched that are none of GOODBYE, CANCEL, USEDDATA, QUERYBUFFER and PUSHDATA; the thread has left if and only if one of those dispatched is a GOODBYE |
| ChannelReading.ClientsHearEachOther | framework/channel/sockets/sockets-receiver.cpp:346-358 | from end to end: what a client has been passed is a prefix of what was queued for it at the other end, content included |
| ChannelRuns.RunHealthy | framework/channel/sockets/sockets-sender.cpp:58-285 | the shape of both ends and the books of every stream are kept by every step of every run |
| ChannelInvariant.PrepareBooks | framework/channel/sockets/sockets-sender.cpp:91-150 | what the sender thread does before a send (flush, new audit, charge, half-full query) keeps every stream's books |
| ChannelInvariant.SendBooks | framework/channel/sockets/sockets-sender.cpp:155-201 | compressing and sending keeps them: the wire carries the same content and the same charge |
| ChannelInvariant.CreditBooks | framework/channel/sockets/sockets-receiver.cpp:240-259 | USEDDATA keeps them |
| ChannelInvariant.AnswerBooks | framework/channel/sockets/sockets-receiver.cpp:261-284 | QUERYBUFFER keeps them, with a reply or without |
| ChannelInvariant.RouteBooks | framework/channel/sockets/sockets-receiver.cpp:286-344 | PUSHDATA keeps them, inflated or not |
| ChannelInvariant.OfferBooks | framework/channel/sockets/sockets.cpp:321-346 | the checked part of a push keeps them, refused or accepted |
| ChannelInvariant.DelivererBooks | framework/channel/deliverer.cpp:96-150 | every step of a deliverer keeps them |
| Overrun.BoundedOverrun | framework/channel/sockets/sockets.cpp:327-350 | before COND_END_RUN_PHASE, estimate plus backlog never exceed the limit by more than the deepest backlog and the largest single push, in items and in bytes |
| Overrun.BoundedOverrunItems | framework/channel/sockets/sockets.cpp:327-350 | in items: the limit plus the deepest backlog plus one |
| Overrun.BoundedOverrunWholePushes | framework/channel/sockets/sockets.cpp:327-350 | without the extra one, in items and in bytes, for runs in which no step comes between a push's check and its enqueue |
| Overrun.OverrunExactly | framework/channel/sockets/sockets.cpp:327-350 | in items and in bytes, at any reachable state: a push that passes its check has a continuation that breaks the sharper bound if and only if estimate, backlog and message together exceed the limit and the deepest backlog so far, and the estimate with all of the stream that is queued ahead of any GOODBYE exceeds the limit |
| Overrun.OverrunItemsExactly | framework/channel/sockets/sockets.cpp:327-350 | in items: if and only if the estimate is at the limit, the backlog is the deepest so far, and no GOODBYE keeps the sender thread from one of the stream's queued messages |
| Overrun.OverrunPerEnqueue | framework/channel/sockets/sockets.cpp:327-350 | an enqueue breaks it if and only if by then the estimate has passed the limit, and with the message all that is committed exceeds the limit and the deepest backlog |
| Overrun.OverrunItemsPerEnqueue | framework/channel/sockets/sockets.cpp:327-350 | in items: if and only if the estimate was at the limit at the check, the backlog then is the deepest also up to the enqueue, and in between nothing was credited and something charged |
| OverrunLimits.SharperBoundExactly | framework/channel/sockets/sockets.cpp:327-350 | in items, the sharper bound holds of every run, before the end of the run phase, if and only if the limit of bytes is less than that of items times the header |
| OverrunLimits.SharperBoundFailsInBytes | framework/channel/sockets/sockets.cpp:327-350 | in bytes, whatever the limits, a run that breaks it: two messages each above PushDataMaxBytes |
| OverrunLimits.OverrunByOneMore | framework/channel/sockets/sockets.cpp:327-350 | for all other limits, a run that reaches the limit of items plus the deepest backlog plus one |
| SenderReach.Reach | framework/channel/sockets/sockets-sender.cpp:58-285 | the sender thread's own steps bring the first message of a kind into its hands, everything ahead of it handled, if no GOODBYE is ahead |
| Progress.RefusedPushGetsThrough | framework/channel/sockets/sockets.cpp:332-353 | from every reachable state in which a push is refused and the threads run, a finite schedule of thread steps brings the estimate to zero and the push offered again is accepted |
| Progress.Unblock | framework/channel/sockets/sockets-receiver.cpp:261-284 | the schedule, from any state in which everything outstanding of a stream will be reported |
| Progress.DrainSender | framework/channel/sockets/sockets-sender.cpp:58-285 | the sender thread's steps, by a measure that decreases although it may queue queries, empty its queue |
| Progress.DrainReaderDelivering | framework/channel/sockets/sockets-receiver.cpp:67-365 | the receiver's and the deliverer's steps, taken together, empty the wire and report the stream |
| Shutdown.CleanShutdown | framework/channel/sockets/sockets-receiver.cpp:362-365 | when a receiver thread has left on GOODBYE, all that was queued up to the GOODBYE, flushes apart, was sent and read in order, and the wire is empty |
| Shutdown.NothingAfterGoodbye | framework/channel/sockets/sockets-sender.cpp:277-285 | once the sender thread has exited nothing more is sent, in any continuation |
| Shutdown.SentUpToGoodbye | framework/channel/sockets/sockets-sender.cpp:277-285 | nothing queued behind the first GOODBYE is handled or sent in any run |
| Shutdown.FlushSends | framework/channel/sockets/sockets.cpp:41-54 | when the first flush returns, everything queued before it has been sent |
| Shutdown.FlushPromise | framework/channel/sockets/sockets-sender.cpp:91-97 | at any reachable state, a flush returns only with everything queued before it sent, in every continuation, if and only if there is nothing to send in what it does not wait for: all that is pending if `flushed` is set, otherwise what stands behind an earlier FLUSH that no GOODBYE precedes |
| Shutdown.SecondFlushBreaks | framework/channel/sockets/sockets.cpp:41-54 | two runs after which a second flush breaks it: one flush has returned, and one flush is still queued |
| Fifo.NoWakeUpLost | framework/channel/fifo.h:65-131 | in every interleaving of producers and one consumer, before stop: outside the window the signal is set iff the queue is not empty, inside it the queue is not empty; so no wake-up is lost and "queue unexpectedly empty" is not reached |
| Fifo.ReleaseCancels | framework/channel/fifo.h:95-142 | after stop and release the consumer's own steps, at most three, end in C_CANCEL |
| Fifo.IpmFifo.Push | framework/channel/fifo.h:65-81 | appends and signals, as the steps of the protocol do; a terminated queue releases the message |
| Fifo.IpmFifo.Pull | framework/channel/fifo.h:95-131 | with the wake-up invariant: the oldest message and its audit, C_CANCEL after stop, a timeout only on an empty queue, and the invariant again |
| Fifo.IpmFifo.TakeAudit | framework/channel/fifo.h:83-93 | returns the audit and clears it |
| Fifo.IpmFifo.Flush | framework/channel/fifo.h:144-156 | releases everything queued, in order, and everything pushed later |
| DelivererCode.DelivererThread.DeliverOne | framework/channel/deliverer.cpp:98-149 | one turn of the loop is the model's take and handle, written out: the message, the audit, the number, and in its loop if and only if in order and not cancelled; out of order, only the take |
| DelivererCode.DelivererThread.ThreadProc | framework/channel/deliverer.cpp:88-150 | the loop delivers as the function Deliver says, reports a wrong number exactly if it took one, and breaking it flushes the queue |
| DelivererCode.DelivererThread.Terminate | framework/channel/deliverer.cpp:58-79 | sets stop and signals, once |
| DelivererCode.DeliverIsRun | framework/channel/deliverer.cpp:88-150 | Deliver is a run of the transition system |
| DelivererCode.DeliversExactly | framework/channel/deliverer.cpp:88-150 | how far Deliver gets: the handler is given messages numbered on from `order` up to its first C_CANCEL, the first wrong number, which is taken all the same, or the end; with the queue, the audit and the phase after it |
| ChannelCode.ProtocolChannel.Push | framework/channel/sockets/sockets.cpp:309-354 | refuses or queues exactly as the model's steps do, with the query that a refusal sends |
| ChannelCode.ProtocolChannel.PrepareMessage | framework/channel/sockets/sockets-sender.cpp:91-150 | the model's step before the send, FLUSH and OUTPUTFOUND included; what that step decides is `ChannelDecisions.AsksExactly` and `ChannelDecisions.KnownExactly` |
| ChannelCode.ProtocolChannel.ChargeMessage | framework/channel/sockets/sockets-sender.cpp:120-150 | the model's charge, of which `ChannelDecisions.AsksExactly` says with the limits written out when it asks |
| ChannelCode.ProtocolChannel.SendMessage | framework/channel/sockets/sockets-sender.cpp:155-284 | writes the packed message and stops at GOODBYE |
| ChannelCode.ProtocolChannel.SenderThread | framework/channel/sockets/sockets-sender.cpp:58-285 | the loop ends with the send queue empty or at GOODBYE, in the state that SendAll gives |
| ChannelCode.SendAllIsRun | framework/channel/sockets/sockets-sender.cpp:58-285 | SendAll is a run of the transition system |
| ChannelCode.ProtocolChannel.AddRoutingEntry | framework/channel/sockets/sockets.cpp:499-519 | adds a fresh deliverer, unless the stream has one |
| ChannelCode.ProtocolChannel.ReceiveMessage | framework/channel/sockets/sockets-receiver.cpp:112-148 | takes a message or fails on the routing table |
| ChannelCode.ProtocolChannel.CreditEstimate | framework/channel/sockets/sockets-receiver.cpp:240-259 | USEDDATA as the model's Credit, its check included |
| ChannelCode.ProtocolChannel.AnswerQuery | framework/channel/sockets/sockets-receiver.cpp:261-284 | QUERYBUFFER as the model's Answer |
| ChannelCode.ProtocolChannel.RouteData | framework/channel/sockets/sockets-receiver.cpp:286-344 | PUSHDATA as the model's Route, inflating only non-empty payloads |
| ChannelCode.ProtocolChannel.DispatchMessage | framework/channel/sockets/sockets-receiver.cpp:219-360 | every tag as the model's Dispatch; the queue of the client has what `ChannelReading.InboxIsWhatWasRead` says, less what the client has taken |
| ChannelCode.ProtocolChannel.TakeForClient | framework/channel/sockets/sockets.cpp:454-461 | the client takes what has been passed on, one by one and in order: the next of it, or a timeout if it has taken all |
| ChannelCode.ProtocolChannel.ReceiverThread | framework/channel/sockets/sockets-receiver.cpp:67-365 | the loop over the messages that arrive gives the state ReadAll says |
| ChannelCode.ReadAllIsRun | framework/channel/sockets/sockets-receiver.cpp:67-365 | ReadAll is a run of the transition system |
| ChannelClient.Pull | framework/channel/sockets/sockets.cpp:454-497 | the loop is the function Outcome, of which `ChannelClient.WaitsExactly` and `ChannelClient.EndsExactly` say what it comes to |
| ChannelClient.GotIsFirst | framework/channel/sockets/sockets.cpp:454-497 | a client gets the first queued message that is no KEEPALIVE |
| ChannelClient.ClockMeasuresSilence | framework/channel/sockets/sockets.cpp:479-489 | the clock shows the silent turns at the end and at most one more |
| ChannelClient.TimesOutOverSilence | framework/channel/sockets/sockets.cpp:479-489 | a pull times out if and only if that silence reaches the timeout |
| ChannelClient.NextTurn | framework/channel/sockets/sockets.cpp:464-493 | one turn more after turns that did not end the loop: it goes on over KEEPALIVE and over silence short of the timeout from a live receiver; otherwise the turn decides |
| ChannelClient.WaitsExactly | framework/channel/sockets/sockets.cpp:464-493 | a pull goes on waiting if and only if it goes on over every turn |
| ChannelClient.EndsExactly | framework/channel/sockets/sockets.cpp:464-493 | otherwise the first turn over which it does not decides: ERROR raises, any other message is handed out, a silence times out from the timeout on, and before that raises as the receiver thread is gone |
| ChannelClient.DerivedChannel.Push | framework/channel/channel.cpp:302-346 | HELLO passes a closed channel, everything else is released and raises unless told not to; 0 means the message is no longer the caller's; the count is that of messages taken |
| ChannelClient.DerivedChannel.Open | framework/channel/channel.cpp:444-495 | open exactly when HELLO went out and the first message in is HELLO |
| ChannelClient.DerivedChannel.Close | framework/channel/channel.cpp:497-526 | one GOODBYE if open, none otherwise; closed even if the push throws |
| ChannelClient.SentIsTaken | framework/channel/channel.cpp:324-328 | the count is that of the messages taken, over every sequence of calls |
| ChannelClient.ClosedTakesOnlyHello | framework/channel/channel.cpp:312-346 | while closed only HELLO is taken |
| ChannelClient.GoodbyeIsLast | framework/channel/channel.cpp:497-513 | only HELLO follows the GOODBYE if and only if no other push is taken before the channel is marked closed |
| ChannelClient.TakenBehindGoodbye | framework/channel/channel.cpp:497-513 | calls in which a message is taken behind the GOODBYE |
| Ownership.SafeIpm.Release | framework/channel/channel.cpp:88-96 | the held message is released once and the holder is empty |
| Ownership.SafeIpm.Retrieve | framework/channel/channel.cpp:98-103 | hands the message over and is relieved of it |
| Ownership.SenderThread | framework/channel/sockets/sockets-sender.cpp:52-287 | the holder is empty at the top of each turn, every message pulled is released exactly once, also the one it throws on |
| Ownership.ReceiverTurn | framework/channel/sockets/sockets-receiver.cpp:112-360 | after a turn both holders are empty and every buffer is released or handed over, one if the message is routed or queued, the one inflated into if it was compressed; where the turn throws, the holders have the rest and nothing is handed over |
| Ownership.ReceiverThread | framework/channel/sockets/sockets-receiver.cpp:62-366 | over the whole loop every buffer taken from a pool is released exactly once or handed over exactly once; those handed over are one for each turn that routes or queues, inflated if its message was compressed |
| Framing.ReceivedIsPrefixOfSent | framework/channel/sockets/sockets-receiver.cpp:77-178 | for every fragmentation the messages received are the first ones sent, and all of them when no byte is left in between |
| Framing.StepKeeps | framework/channel/sockets/sockets-receiver.cpp:77-178 | no byte is skipped or read twice: what lies between the ends is the stream of the undelivered messages |
| Framing.EverythingArrives | framework/channel/sockets/sockets-receiver.cpp:77-178 | once the sender is done the receiver can get everything that was sent |
| Framing.Connection.SendMessage | framework/channel/sockets/sockets-sender.cpp:226-275 | however the socket takes the bytes, what it has and what is left make up the message |
| Framing.Connection.ReceiveMessage | framework/channel/sockets/sockets-receiver.cpp:77-178 | peeking and reading loops deliver exactly the next message sent, or nothing: an error fails either loop, no bytes fail the peek only |
| Ports.ListenPort | framework/channel/sockets/sockets-support.cpp:133-145 | the 32-bit port of the place of a pair of voices |
| Ports.PortsAreAllocatedOnce | framework/channel/sockets/sockets-support.cpp:133-145 | different pairs get different ports |
| Ports.PortsAreConsecutive | framework/channel/sockets/sockets-support.cpp:133-145 | the ports are exactly the V(V-1)/2 consecutive ones from the base |
| Ports.WirePortsExactly | framework/channel/sockets/sockets.cpp:65-70 | in the 16 bits of a socket address different pairs have different ports if and only if there are at most 65536 pairs |
| Ports.ChannelsMeet | framework/channel/sockets/sockets.cpp:19-34 | one end is server, its local port is the client's remote port, and no other channel's server listens there, as 32-bit numbers and, with at most 65536 pairs, in the socket address |
| TwisterWords.TwistFits | components/std/not currently used/MersenneTwister.h:126-132 | twisting keeps words below 2^32 |
| TwisterWords.TemperUndone | components/std/not currently used/MersenneTwister.h:188-192 | every 32-bit word is recovered from its tempered one, undoing the four shifts from the last to the first |
| TwisterWords.TwistUndone | components/std/not currently used/MersenneTwister.h:126-132 | a twist tells the top bit of one word that went into it and the other 31 of the next |
| TwisterWords.KnuthUndone | components/std/not currently used/MersenneTwister.h:294-296 | a step of the seeding sequence is undone, its multiplier having an inverse modulo 2^32 |
| TwisterWords.MixKeyUndone | components/std/not currently used/MersenneTwister.h:233-242 | the word that a step of the first pass overwrites is recovered from what it was mixed with |
| TwisterWords.MixIndexUndone | components/std/not currently used/MersenneTwister.h:244-252 | and so is that of the second pass |
| TwisterWords.UsedIsLeastMask | components/std/not currently used/MersenneTwister.h:197-210 | the mask of randInt(n) is the least 2^k-1 that covers n, so no number up to n is lost |
| MersenneTwister.MTRand.RandIntUpTo | components/std/not currently used/MersenneTwister.h:195-212 | randInt(n) returns the first number from here on whose masked value is at most n, with all before it above n, and moves on past it; as far as a given number of draws goes |
| MersenneTwister.MTRand.Reload | components/std/not currently used/MersenneTwister.h:301-314 | overwriting in place in three pieces gives the next N words of the recurrence |
| MersenneTwister.MTRand.RandInt | components/std/not currently used/MersenneTwister.h:179-193 | returns the tempered next word of the recurrence, leaves the same future from the next one on, below 2^32; `left` and `next` stay complementary; tempering is what `TwisterWords.TemperUndone` undoes |
| MersenneTwister.Rewinds | components/std/not currently used/MersenneTwister.h:301-314 | x(k+624) and x(k+397) tell the top bit of x(k) and the other bits of x(k+1) |
| MersenneTwister.OutputsDetermine | components/std/not currently used/MersenneTwister.h:179-193 | 624 outputs in a row determine all later ones, whatever states they come from |
| MersenneTwister.MTRand.Seed | components/std/not currently used/MersenneTwister.h:215-220 | the n-th number after seeding is the tempering of x(N+n) of the recurrence on the seed's words |
| MersenneTwister.MTRand.Initialize | components/std/not currently used/MersenneTwister.h:283-298 | the words of a seed, by their recurrence |
| MersenneTwister.MTRand.SeedFromArray | components/std/not currently used/MersenneTwister.h:223-256 | the same for a key |
| MersenneTwister.KeyWordsFit | components/std/not currently used/MersenneTwister.h:223-256 | the words of a key are below 2^32 and never all zero |
| MersenneTwister.HighKeyBitsIgnored | components/std/not currently used/MersenneTwister.h:223-243 | bits of the key above the lower 32 are discarded |
| MersenneTwister.HighSeedBitsIgnored | components/std/not currently used/MersenneTwister.h:283-298 | bits of the seed above the lower 32 are discarded |
| TwisterSeeding.SeedRewinds | components/std/not currently used/MersenneTwister.h:283-298 | every word of the state of a seed gives the word before it |
| TwisterSeeding.SeedsAgree | components/std/not currently used/MersenneTwister.h:283-298 | two seeds agree in a word of the state if and only if they agree in their lower 32 bits |
| TwisterSeeding.KeySeedsExactly | components/std/not currently used/MersenneTwister.h:223-256 | every word of the state of a key, said without a state: numbers that the two passes make, each from the one before it, the one a round ago, and a key element or its index |
| MersenneTwister.OutputFits | components/std/not currently used/MersenneTwister.h:179-193 | every output of 32-bit words is below 2^32, although the type is wider |
| MersenneTwister.Restart | components/std/not currently used/MersenneTwister.h:343-361 | any N consecutive words determine the rest, so a restored block has the same future |
| MersenneTwister.MTRand.Save | components/std/not currently used/MersenneTwister.h:343-350 | what is saved has the generator's future |
| MersenneTwister.MTRand.Load | components/std/not currently used/MersenneTwister.h:353-361 | the future is that of what is loaded |
| IndexNumeric.IndexProcess.Connect | components/dev/index/index.cpp:173-281 | refuses exactly a wrong count, an index out of range, or every dimension squeezed; never reaches the internal error; otherwise the output has one element for each entry of the table, which holds the source offset of every combination, all inside the input |
| IndexNumeric.IndexProcess.Serve | components/dev/index/index.cpp:283-338 | refuses exactly booleans, and then writes nothing; gathers through the table otherwise |
| IndexNumeric.IndexProcess.Fill | components/dev/index/index.cpp:238-276 | the odometer ends after exactly the product of the list lengths, entry k being the offset of the mixed-radix digits of k |
| IndexNumeric.IndexProcess.Advance | components/dev/index/index.cpp:262-272 | the carry loop is the odometer's successor, and reports the end exactly at the last combination |
| IndexNumeric.IndexProcess.SourceAt | components/dev/index/index.cpp:256-260 | the strided sum is the nested offset |
| IndexNumeric.IndexProcess.StateSet | components/dev/index/index.cpp:111-161 | refuses exactly a text other than ":" |
| IndexNumeric.NextDigits | components/dev/index/index.cpp:262-272 | the successor of the digits of k are the digits of k+1 |
| IndexNumeric.LastDigits | components/dev/index/index.cpp:262-275 | all digits are last if and only if k is the last combination |
| IndexNumeric.DigitsOfNumber | components/dev/index/index.cpp:250-276 | k is recovered from its digits, as the column-major number of a position |
| IndexNumeric.NumberOfDigits | components/dev/index/index.cpp:250-276 | and the position from its number |
| IndexNumeric.OffsetIsLinear | components/dev/index/index.cpp:256-260 | the source offset is the column-major number of the input index that the position selects |
| IndexNumeric.OffsetInside | components/dev/index/index.cpp:256-260 | every offset is inside the input |
| IndexNumeric.SourcesDistinct | components/dev/index/index.cpp:250-276 | lists without repetition select no element twice |
| IndexNumeric.ColonsAreIdentity | components/dev/index/index.cpp:187-204 | ":" in every dimension selects entry k at place k |
| IndexNumeric.SqueezingKeepsProduct | components/dev/index/index.cpp:217-236 | squeezing leaves the number of elements |
| IndexNumeric.SqueezingKeepsNumber | components/dev/index/index.cpp:217-236 | nor does it change the number of an element in column-major order |
| IndexNumeric.AllSqueezed | components/std/data/numeric/data_numeric.cpp:1412-1413 | no dimension is left, which setStructure refuses, if and only if all are squeezed |
| IndexNumeric.DoIndex | components/dev/index/index.cpp:99-103 | gathers one value for each entry of the table and leaves the rest of the output as it was |
| IndexNumeric.TableSelects | components/dev/index/index.cpp:238-276 | at the number that a position has in the squeezed output, the table has the number of the input element it selects |
| IndexNumeric.IndexesExactly | components/dev/index/index.cpp:283-338 | with the sizes that setStructure allocates, the service succeeds and every part of every element of the output is that part of the input element its position selects, whatever the contents, if and only if the elements are not TYPE_BOOL8, and they are real or there are none |
| IndexNumeric.BooleansRefused | components/dev/index/index.cpp:336-337 | an input and output of any sizes, none included, which the service refuses as they are boolean |
| IndexNumeric.ImaginaryMissed | components/dev/index/index.cpp:99-103 | complex values that are not indexed, in either storage format |
| IndexNumeric.RealPartIndexed | components/dev/index/index.cpp:99-103 | of elements whose parts are not interleaved the real part is indexed, and all behind the real parts is left as it was |
| Cat.CatProcess.Connect | components/dev/cat/cat.cpp:120-203 | accepts exactly compatible inputs, which are those of one type and one shape but for `dim`; names the first input that is not and what is wrong with it; lays out offsets, block sizes, stride and count |
| Cat.CatProcess.Run | components/dev/cat/cat.cpp:207-225 | every byte of every block is at its place, and what is behind the blocks is as it was, for real and complex inputs |
| Cat.ConcatenatesExactly | components/dev/cat/cat.cpp:179-225 | with the sizes that setStructure allocates, every part of every element of the output is that of the input element it comes from, whatever the contents, if and only if the elements are real or there are no bytes |
| Cat.RealPartConcatenated | components/dev/cat/cat.cpp:179-225 | of complex elements stored part after part, real parts are concatenated and all behind them is left as it was |
| Cat.OneInput | components/dev/cat/cat.cpp:139-185 | every element of the output comes from exactly one input |
| Cat.Concatenates | components/dev/cat/cat.cpp:207-225 | counting elements by their real bytes, each output multi-index holds the element of the one input whose range along `dim` contains it |
| Cat.WrittenAtMostOnce | components/dev/cat/cat.cpp:179-225 | no output byte is written twice |
| Cat.WrittenAtLeastOnce | components/dev/cat/cat.cpp:179-225 | every output byte below stride times block count is written |
| Cat.WrittenExactly | components/dev/cat/cat.cpp:179-225 | every byte of the output, as allocated, is written if and only if the elements are real or there are no bytes |
| Cat.LayoutIsPacked | components/dev/cat/cat.cpp:179-197 | the blocks of the inputs follow each other without gap and fill the stride |
| Filter.RollingFilter.Step | components/std/not currently used/filter.cpp:246-292 | the output is the difference equation over the whole history, for every L including 0 and 1: in every lane the sum of a_k y[n-k], with a_0 = 1, equals that of b_k x[n-k]; the queues hold the history again |
| Filter.RollingFilter.AddTerms | components/std/not currently used/filter.cpp:256-277 | one rolling loop adds the sum over the lags of coefficient times delayed value |
| Filter.RollingFilter.RollQueue | components/std/not currently used/filter.cpp:279-292 | the new vector goes where the advanced pointer points, and slot k-1 places behind it is k steps old |
| Filter.FilterBank.Step | components/std/not currently used/filter.cpp:236-297 | all filters take a step on the same input, each in its own stretch of the workspace |
| Filter.FilterBank.constructor | components/std/not currently used/filter.cpp:181-212 | the stretches fit the workspace and do not overlap |
| Filter.ResponseSatisfiesEquation | components/std/not currently used/filter.cpp:246-292 | the response is built step by step, each output from the histories before it |
| Filter.ResponseBalances | components/std/not currently used/filter.cpp:246-292 | at every step and in every lane the plain sum of a_k y[n-k], with a_0 = 1, equals that of b_k x[n-k] over the whole histories, zero before the start |
| Filter.ImpulseResponse | components/std/not currently used/filter.cpp:246-292 | for one lag and no delayed input the response to an impulse is 1, -a_1, (-a_1)^2 and so on |
| Filter.ResponseIsLinear | components/std/not currently used/filter.cpp:246-292 | the response to a sum of inputs is the sum of the responses |
| Ring.State.Step | components/bench/elements/scalable.cpp:19-78 | returns its input bumped (O-1)E+1 times and leaves element e bumped by its visit in the last sweep |
| Ring.State.Sweep | components/bench/elements/scalable.cpp:32-50 | one strided pass |
| Ring.VisitIsOneToOne | components/bench/elements/scalable.cpp:33-52 | no two elements are visited at the same time |
| Ring.EachElementOnce | components/bench/elements/scalable.cpp:33-52 | at every time of a sweep one element is visited |
| Ring.System.Advance | components/bench/elements/elements_monolithic.cpp:81-107 | the descending double-buffered loop is one step of the synchronous ring |
| Ring.System.Run | components/bench/elements/elements_monolithic.cpp:79-111 | so are n steps |
| Ring.RingIterates | components/bench/elements/elements_monolithic.cpp:79-111 | after n steps every output is n((O-1)E+1) bumps from 0 |
| Ring.DistanceShrinks | components/bench/elements/scalable.cpp:41-43 | n bumps take the distance from 10000, where a bump changes nothing, down by 1.0001^n |
| DataMLNumeric.NumericDataToText | framework/public/brahms-c++-common.h:2460-2524 | the chunk-flushed printer gives the unbuffered concatenation without its last space |
| DataMLNumeric.Put | framework/public/brahms-c++-common.h:2494-2504 | a number appended to the buffer, which it never outruns |
| DataMLNumeric.TextToNumericData | framework/public/brahms-c++-common.h:2119-2317 | the cursor-based parser is the function ParseNumbers |
| DataMLNumeric.CollectInteger | framework/public/brahms-c++-common.h:2222-2240 | the 64-bit accumulator does not wrap for any digit string |
| DataMLNumeric.CollectFraction | framework/public/brahms-c++-common.h:2242-2268 | neither does that of the fraction, and the divisor counts the digits it took |
| DataMLNumeric.TakesLeadingDigits | framework/public/brahms-c++-common.h:2228-2267 | the accumulator takes leading digits, all or as many as pass 10^18, and the divisor is the power of ten for those |
| DataMLNumeric.TakesAllDigits | framework/public/brahms-c++-common.h:2242-2267 | a fraction of up to 18 digits is its decimal value |
| DataMLNumeric.AccumulatesExactly | framework/public/brahms-c++-common.h:2228-2236 | the accumulator holds a number exactly if and only if it is at most 10^19+9 |
| DataMLNumeric.NumberExactly | framework/public/brahms-c++-common.h:2163-2312 | what is taken for a number, and which: a sign, digits, a point that digits must follow, and a space that only the last number may lack; with its decimal value for up to 15 digits on either side |
| DataMLNumeric.TruncatesTowardZero | framework/public/brahms-c++-common.h:2311-2312 | the conversion to an integer type cuts off toward zero |
| DataMLNumeric.ReadsInOrder | framework/public/brahms-c++-common.h:2119-2317 | the numbers are read one behind the other, each from where the one before it ended, and the first that is none decides |
| DataMLNumeric.ParsesPrinted | framework/public/brahms-c++-common.h:2169-2312 | a printed integer up to 2^53 parses as itself, with the space after it |
| DataMLNumeric.RoundTrip | framework/public/brahms-c++-common.h:2319-2457 | real and complex arrays of any length survive writing and reading, and the text is consumed |
| DataMLNumeric.ReadingExactly | framework/public/brahms-c++-common.h:2319-2457 | each refusal of a text exactly: a number in either phase that is none, or text behind the last one; the second phase starts where the first ended |
| DataMLNumeric.ArrayNode.SetRaw | framework/public/brahms-c++-common.h:2614-2677 | the refusals, each exactly, for real and complex types in either format; otherwise the text of the values |
| DataMLNumeric.ArrayNode.GetRaw | framework/public/brahms-c++-common.h:2319-2457 | the refusals, each exactly, and otherwise one or two phases from the start of the text to its end |
| DataMLStructure.DimsSurvive | framework/public/brahms-c++-common.h:1523-1546 | dimensions below 2^32 survive printing and scanning, any other is refused |
| DataMLStructure.PrintDims | framework/public/brahms-c++-common.h:383-392 | sizes separated by single spaces |
| DataMLStructure.ParseDims | framework/public/brahms-c++-common.h:1528-1546 | the token loop is the function ScanDims |
| DataMLStructure.ShapeNode.SetArrayStructure | framework/public/brahms-c++-common.h:2606-2611 | no attribute for a 64-bit count of 1, the printed sizes otherwise |
| DataMLStructure.CountElements | framework/public/brahms-c++-common.h:405-412 | multiplying in 64 bits gives the product modulo 2^64, 0 for no dimensions |
| DataMLStructure.ShapeNode.Assign | framework/public/brahms-c++-common.h:1523-1553 | no attribute means [1] |
| DataMLStructure.ShapeSurvives | framework/public/brahms-c++-common.h:2606-2611 | for all dimensions: what is written comes back if and only if its 64-bit count is not 1 and all sizes are below 2^32, or it is [1] |
| DataMLStructure.WrappedShapeDoesNotSurvive | framework/public/brahms-c++-common.h:405-412 | five sizes below 2^32 whose product wraps round to 1 |
| DataMLFields.FieldNamesInvertsJoined | framework/public/brahms-c++-common.h:1883-1899 | getFieldNames inverts the written attribute |
| DataMLFields.NamesSurvive | framework/public/brahms-c++-common.h:1883-1899 | the names survive if and only if none has a semicolon |
| DataMLFields.HasFieldIsMembership | framework/public/brahms-c++-common.h:1873-1881 | the substring search agrees with membership for tags without semicolon |
| DataMLFields.HasFieldExactly | framework/public/brahms-c++-common.h:1873-1881 | for any tag it finds the names in it standing next to each other |
| DataMLFields.FoundButNoField | framework/public/brahms-c++-common.h:1873-1881 | a tag that is found and is no field |
| DataMLFields.StructNode.HasField | framework/public/brahms-c++-common.h:1873-1881 | the search itself |
| DataMLFields.StructNode.GetFieldNames | framework/public/brahms-c++-common.h:1883-1899 | the loop is the function FieldNames |
| DataMLFields.StructNode.GetField | framework/public/brahms-c++-common.h:1901-1931 | the errors, each exactly, and otherwise the child numbered by element and first place of the name |
| DataMLFields.StructNode.AddField | framework/public/brahms-c++-common.h:1933-1964 | refuses non-scalar structs and names present; the new field has the last child and every earlier field keeps its own |
| DataMLFields.StructNode.BecomeStruct | framework/public/brahms-c++-common.h:1966-1995 | elements counted in 64 bits, their fresh children in 32: a struct array of these fields if and only if there are fewer than 2^32 children |
| DataMLFields.ChildNumbers | framework/public/brahms-c++-common.h:1915-1917 | element and field map one-to-one onto the children |

## Left out

- Socket system calls, connection set-up, Nagle and blocking switches, timers, logging and the operating system's threads: foreign effects; what remains of them is chunk sizes and optional timeouts.
- The MPI channel: it repeats the audit protocol over a library.
- zlib and the estimate of deflated sizes: an arbitrary pair of functions, the second inverse to the first.
- `ipm.h` and `base/os.h` are not part of this model: a message's size at the deliverer is its header and its body, which is proved to be the uncompressed size charged; `Signal` is the auto-reset flag of support/checkengine/os.cpp:268-385.
- 16-bit and 32-bit wrap-around of message numbers, audits and counters of the channel: they are unbounded.
- The order in which a channel's client makes its streams ready is assumed, as the callers do it: OUTPUTFOUND and the routing entry precede PUSHDATA, the messages of a stream are numbered 0, 1, 2, ..., and a refused one is offered again. The section under the audits mutex in `push` and in the sender thread is one step each.
- The half-full test is on whole numbers, twice the count against the limit: what the source computes in double, except for its NaN when count and limit are both zero.
- What the threads do on a socket error, and the releases of `terminate` at both ends after the threads have ended: in `Ownership` an error ends a loop, the runs of the channel have none.
- ChannelClient.DerivedChannel.Open: the protocol-level connection is not part of it.
- MersenneTwister: seeding from the clock or a device, `randNorm`, and the scaled real-valued outputs. Keys have fewer than 2^31 words, as an `int` counts them.
- 32-bit wrap-around of counts, strides and offsets in `index` and `cat`: they are unbounded. `cat` reads an input's size along `dim` before it checks the number of dimensions; an input with fewer is refused all the same, and the read is skipped here.
- MersenneTwister.MTRand.RandIntUpTo: that randInt(n) ends, as the source's loop has no bound; here it is given one.
- Ring: the log file of the benchmark, and the branch without USE_WRAP. Arithmetic is exact, over the reals.
- Filter: reading the state and its validation, and the framework's ports. Arithmetic is exact, over the reals.
- DataMLNumeric.TextToNumericData: infinities, NaNs and exponents end the parse as Unmodelled; the conversion of a count to double is exact up to 2^53 and unspecified beyond, the division of a fraction is exact, and the conversion to the element type truncates without range.
- DataMLNumeric.NumericDataToText: integer formats only, so the rewriting of IEEE names has nothing to do.
- DataMLNumeric.ArrayNode.SetRaw: types whose complexity or complex format is not specified, or whose elements are neither numbers nor booleans, which the source refuses: a type is complete here.
- DataML arrays in binary files, CHAR16 arrays, cell arrays, attributes other than those named, and the type and class characters of a node.
- DataMLStructure.ParseDims: a signed number, which the stream accepts, ends the scan as SignedDims.
- Bindings, image display, command line, version and licence output, the legacy event wrappers, and the processes not named above.
