# Verified model of the reliable UDP transfer stack

The repository transfers files over an encrypted, reliable UDP transport, with a relay in between where
needed. This project models its sequential cores in Dafny, in the form the program gives them (objects
with fields, loops over arrays and lists, values), and proves what they promise.

| files | what they model |
|---|---|
| WheelConfig, SlotTable, DeadlineHeap, WheelLists, Placement, WheelCore, TimeWheel | the hierarchical timing wheel: slot lists threaded through a table, cascade, fast-forward, indexed heap |
| TimerModel, TimerRuns, WheelRefinement | the timer service the wheel refines, and whole runs of it |
| Segments, ReceiveStream, SendStream, StreamDelivery, StreamAccounting | the two halves of a stream, one stream end to end, and the receiving side of a connection |
| Timers, TransportModel, Ledger, Transport, TransportRuns | the reliable sender with its congestion and flow control, timers and loss recovery, the log of what it sent, and runs with a peer |
| Delivery, Grants, DataRuns, Undelivered | whole connections end to end: what the reader holds, what the peer can take, all runs, and a run that loses data |
| Bytes, Varint, AckRanges, AckWire, Reader, Frames, Packets, Reencoding | received-packet ranges and the packet codec |
| ReplayWindow | the 4096-bit anti-replay bitmap |
| Manifest, Storage, SessionModel, Session, SessionCases, ResumeSystem | the resumable transfer session, its storage, runs that show what its handlers allow, and both parties with a network between them |
| RelayQuota | the relay's byte quota as interleaved atomic operations |
| Wrappers, Sums | results, options, ordered iteration, sums over maps |

Runs are scripts: a method that performs any sequence of actions with an invariant is a theorem about every
run. The network may lose, duplicate and reorder whatever was sent, because a script may deliver any packet
ever emitted, at any time and any number of times. Machine integers are modelled where the program can reach
their ends: checked, saturating and wrapping operations are written out.

## Model

| member | source | states |
|---|---|---|
| WheelRefinement.RunScript | crates/time-wheel/src/wheel.rs:92-265 | every script of inserts, reschedules, cancels, advances and clears takes the wheel through exactly the states of a simple service (a map from id to item and deadline, and a clock), and what it emits is exactly what the service fires, each timer once |
| WheelRefinement.Apply | crates/time-wheel/src/wheel.rs:92-265 | one operation on the wheel is one step of the service, and an advance emits exactly the timers due, however it is carried out |
| TimeWheel.Wheel.constructor | crates/time-wheel/src/wheel.rs:68-89 | a fresh wheel is valid, holds no timer and stands at tick 0 |
| TimeWheel.Wheel.AdvanceBy | crates/time-wheel/src/wheel.rs:167-213 | on success the clock moves by the elapsed nanoseconds, exactly the timers with deadlines up to the new tick leave the map and are emitted, once each, in deadline order when the advance is stepped; an advance that fails changes nothing; no internal inconsistency can be reported |
| TimeWheel.Wheel.Insert | crates/time-wheel/src/wheel.rs:92-119 | the map gains one entry under a new id with the deadline of `deadline_after`; on overflow nothing changes |
| TimeWheel.Wheel.Reschedule | crates/time-wheel/src/wheel.rs:122-147 | the deadline of a live timer, and nothing else, changes; a stale id or an overflow changes nothing |
| TimeWheel.Wheel.Cancel | crates/time-wheel/src/wheel.rs:150-164 | returns the item if the id is live, and removes exactly this entry |
| TimeWheel.Wheel.NextDeadline | crates/time-wheel/src/wheel.rs:216-233 | none if and only if no timer is live; otherwise the wait until the least deadline, or the overflow of computing it |
| TimeWheel.Wheel.Clear | crates/time-wheel/src/wheel.rs:256-265 | every live timer is dropped and its payload returned once |
| TimeWheel.Wheel.DetermineLocation | crates/time-wheel/src/wheel.rs:283-297 | the slot chosen is opened at or before the deadline and, on any level but the lowest, strictly after the current tick |
| TimeWheel.Wheel.Link | crates/time-wheel/src/wheel.rs:300-341 | a loose key joins the end of one slot list; the lists, head, tail and links stay consistent and no other entry is touched beyond its links |
| TimeWheel.Wheel.Unlink | crates/time-wheel/src/wheel.rs:344-385 | a key leaves its list and becomes the only loose one; item and deadline stay, the neighbours are repaired |
| TimeWheel.Wheel.ProcessSlot | crates/time-wheel/src/wheel.rs:411-461 | one slot is emptied: what is due is emitted, the rest is placed anew, and every other entry stays |
| TimeWheel.Wheel.CascadeAtCurrentTick | crates/time-wheel/src/wheel.rs:396-408 | after the cascade no entry above the lowest level is left to be opened at this tick; what it emits is due exactly now |
| TimeWheel.Wheel.ProcessL0Slot | crates/time-wheel/src/wheel.rs:388-391 | afterwards only later deadlines remain; what it emits is due exactly now |
| TimeWheel.Wheel.StepTo | crates/time-wheel/src/wheel.rs:194-206 | stepping tick by tick emits each timer at the very tick of its deadline, in non-decreasing order of deadlines, for every layout and any number of rounds of the top level |
| TimeWheel.Wheel.FastForward | crates/time-wheel/src/wheel.rs:475-513 | jumping to the target leaves exactly the later timers, all placed anew, and emits exactly the others |
| TimerModel.PathsAgree | crates/time-wheel/src/wheel.rs:167-213 | cutting an advance in two, stepping or jumping in each part, gives the same clock, the same timers left and the same multiset of emissions |
| TimerModel.AdvanceConserves | crates/time-wheel/src/wheel.rs:173-188 | whole ticks times their length plus the remainder grow by exactly the elapsed nanoseconds, and the remainder stays below one tick |
| TimerModel.SameEmission | crates/time-wheel/src/wheel.rs:197-206 | two ways of emitting the same timers differ in their order only |
| TimerRuns.ReachableSound | crates/time-wheel/src/wheel.rs:92-265 | in every reachable state each issued id is live, fired or cancelled, and one of them only; nothing live is overdue; nothing fired early or after the advance that reached its deadline; elapsed time is conserved |
| TimerRuns.FiresOnTime | crates/time-wheel/src/wheel.rs:268-280 | a timer with delay D > 0 that is left alone has fired if and only if X time has passed since, for one X with D <= X < D + one tick that does not depend on how time is split over calls nor on other operations |
| TimerRuns.ExactSleep | crates/time-wheel/src/wheel.rs:216-233 | where the numbers are in range, advancing by the reported wait fires the earliest timers and no others, and advancing by anything shorter fires none |
| WheelConfig.Build | crates/time-wheel/src/config.rs:113-178 | a configuration is built if and only if tick, level count, slot counts, slot budget and ranges allow it, with unit, span and mask of each level as products of the slot counts; otherwise the error is that of the first check that fails, for the first level that does not fit |
| WheelConfig.MaskIsMod | crates/time-wheel/src/wheel.rs:295-296 | masking with the slot count minus one is reduction modulo the slot count, for every tick |
| DeadlineHeap.Heap.Insert | crates/time-wheel/src/deadline.rs:43-61 | the heap stays ordered and mirrors the table: every entry knows the place of its node |
| DeadlineHeap.Heap.Update | crates/time-wheel/src/deadline.rs:64-89 | a changed deadline is moved to where the order holds, and the mirror is kept |
| DeadlineHeap.Heap.Remove | crates/time-wheel/src/deadline.rs:92-120 | the last node takes the place of the removed one; order and mirror hold for all other keys |
| DeadlineHeap.Heap.SiftUp | crates/time-wheel/src/deadline.rs:128-141 | from an order broken only above one place, swaps with index write-back restore it |
| DeadlineHeap.Heap.SiftDown | crates/time-wheel/src/deadline.rs:144-167 | from an order broken only below one place, swaps with index write-back restore it |
| DeadlineHeap.RootIsLeast | crates/time-wheel/src/deadline.rs:33-35 | no node of an ordered heap is less than its first |
| DataRuns.RunData | crates/reliable-core/src/connection.rs:159-331 | for any script of writes, flushes, timer advances, losses, duplications, reorderings, acknowledgements, reads and resets, up to the first error at the sender: what is read from each stream is a prefix of what was written to it, and all of it once the end was reported; nothing is refused if and only if the peer could take every data packet when it recorded it, as it always can in a run whose steps keep to what the peer granted (`DataLink.Granted`); a stream that was not reset is delivered in full, its end included, if and only if each of its chunks went out in a packet that could be taken; once the sender is reliably flushed and nothing was refused, every stream is |
| DataRuns.RunDelivered | crates/reliable-core/src/connection/transport.rs:130-132 | the same of every state that keeps the invariant of both sides |
| DataRuns.OneStep | crates/reliable-core/src/connection.rs:159-331 | every step of either side keeps the invariant, and the run counts as kept exactly as long as each step kept to the grants |
| DataRuns.DataLink.Deliver | crates/reliable-core/src/connection.rs:166-205 | a data packet that is recorded is noted with whether it could be taken at that moment, by the condition on stream, windows and buffer; one that could not leaves every stream as it was; the peer's record changes as `Record` says |
| DataRuns.CanTakeGranted | crates/reliable-core/src/connection.rs:447-480 | as long as every step kept to the grants, a packet that arrives can be taken |
| DataRuns.RunGranted | crates/reliable-core/src/connection.rs:411-480 | for any script whose steps are checked first and taken only if they keep to what the peer granted: nothing is refused, and once the sender is reliably flushed, everything written to every stream that was not reset has been delivered |
| DataRuns.DataLink.Check | crates/reliable-core/src/connection.rs:411-480 | what that asks of a step can be found out before it, from the windows on both sides, the open streams and the numbers on record |
| Grants.GrantedAdmits | crates/reliable-core/src/connection.rs:447-480 | whatever the sender sent on a stream that is open at the peer fits there, if the windows of the sender end where the peer's do or before and no stream's window is wider than the buffer |
| Grants.PlacesSent | crates/reliable-core/src/flow_control.rs:9-35 | the positions that hold a byte at the peer, over all streams, together with those that a packet under way would fill, are no more than the bytes the sender has accounted |
| Grants.FreeFits | crates/reliable-core/src/receive.rs:85-103 | what waits and what is free in a frame lie side by side in the window, so new bytes never overfill it |
| Delivery.DeliveredIff | crates/reliable-core/src/connection/transport.rs:130-132 | all that was written to a stream that was not reset has been delivered, if and only if each of its chunks went out in a packet that the peer could take: what is held came in such packets, chunks do not overlap, and they cover the text |
| Delivery.WrittenComplete | crates/reliable-core/src/send.rs:118-174 | a write keeps every byte of every text in exactly one chunk, and the end of each text that was ended in exactly one |
| Delivery.PacketTaken | crates/reliable-core/src/connection.rs:447-480 | a packet that could be taken leaves what the peer holds in agreement with what was written, holding all that such packets brought and nothing else |
| Undelivered.DataLost | crates/reliable-core/src/connection.rs:166-205 | with the default configuration: the packet with a stream's only data arrives before the stream is opened at the peer, is recorded and acknowledged, the sender is reliably flushed, the stream is open by then, and its data was not delivered |
| StreamDelivery.RunLink | crates/reliable-core/src/receive.rs:42-157 | one stream, as objects: under any loss, duplication, reordering and requeueing the concatenated reads are a prefix of the bytes written, the end is reported only after all of them, and no arriving frame is ever refused as inconsistent |
| ReceiveStream.ReceiveStream.Insert | crates/reliable-core/src/receive.rs:42-83 | a frame is refused exactly for the reasons of the source and then changes nothing; otherwise it adds exactly the bytes not yet held, overwrites none, and delivers whatever became contiguous |
| ReceiveStream.ReceiveStream.NewBytes | crates/reliable-core/src/receive.rs:85-103 | predicts exactly the number of bytes that inserting would add |
| ReceiveStream.ReceiveStream.UncoveredRanges | crates/reliable-core/src/receive.rs:123-146 | exactly the free positions of the frame, in order and apart |
| ReceiveStream.ReceiveStream.DeliverContiguous | crates/reliable-core/src/receive.rs:148-157 | everything that continues the delivered bytes is delivered; every held byte keeps its position |
| ReceiveStream.ReceiveStream.BufferedLen | crates/reliable-core/src/receive.rs:119-121 | ready and waiting bytes together never exceed the window past what was read |
| SendStream.SendStream.Write | crates/reliable-core/src/send.rs:118-174 | all of the data is queued in chunks of the given size, FIN on the last, or nothing changes and the refusal is the first that applies |
| SendStream.CutIsOk | crates/reliable-core/src/send.rs:136-172 | what a write queues are pieces of the text, in order and apart, together exactly the data, with FIN on the last one alone if it was asked for |
| SendStream.CutCovers | crates/reliable-core/src/send.rs:136-172 | every byte of a write is in one of the pieces queued |
| SendStream.SendStream.PopSendable | crates/reliable-core/src/send.rs:176-183 | the front piece leaves the queue, and the object takes the step `Popped` of its value |
| SendStream.SendStream.Requeue | crates/reliable-core/src/send.rs:189-200 | a piece goes back to the front, and the object takes the step `Requeued` of its value |
| StreamAccounting.RunReceiver | crates/reliable-core/src/connection.rs:447-480 | over any script of opens, frames, reads and resets on any streams the connection-wide counter is the number of distinct positions accepted, summed over all streams, and no stream buffers more than its window |
| StreamAccounting.ConnectionReceiver.ProcessStreamData | crates/reliable-core/src/connection.rs:447-480 | succeeds if and only if the stream is known and, unless it is closed, the frame ends within its window and agrees with its end, and its new bytes fit the buffer and the connection's window; then the stream took the frame and its own counter and the connection's grew by exactly the new bytes; otherwise no counter and no inbox moved; other streams are untouched |
| StreamAccounting.StreamRecord.Accept | crates/reliable-core/src/connection/streams.rs:208-249 | the same condition for one stream |
| StreamAccounting.ConnectionReceiver.ReadStream | crates/reliable-core/src/connection/streams.rs:177-206 | the front of what is ready is returned, the end exactly when everything was delivered and read; no counter moves; a reset stream reports its code |
| StreamAccounting.ConnectionReceiver.OpenStream | crates/reliable-core/src/connection/streams.rs:129-155 | a known stream stays as it is; a new one starts empty with the window given if its id has the expected parity, and is refused otherwise |
| StreamAccounting.ConnectionReceiver.ResetStream | crates/reliable-core/src/connection/streams.rs:257-264 | the stream is marked reset with the code, and nothing else changes |
| StreamAccounting.ConnectionReceiver.EveryStreamWithinWindow | crates/reliable-core/src/connection/streams.rs:208-249 | no stream buffers more than its window |
| StreamAccounting.HeldCount | crates/reliable-core/src/receive.rs:42-83 | the counter of a stream is the number of distinct positions that hold a byte |
| TransportRuns.RunAcks | crates/reliable-core/src/connection/transport.rs:175-465 | in every run with an honest peer, up to the first error of a call: each chunk is in exactly one of its queue, the sent table and the acknowledged ones; it is acknowledged only if the peer recorded a packet with it; no chunk, and no queued control frame, is emitted more than max_retransmissions + 1 times, unless the limit is the largest value of the saturating counter; a control frame that waits was emitted exactly as often as its counter says, and one on its way once more; retransmission timers and sent packets correspond one to one; bytes in flight are the lengths in the table, unless the window may reach the largest value of their counter, no packet that asks for an acknowledgement is sent unless it fits the window, and the window stays in its bounds; new bytes are accounted once, within what the peer granted; `AckForUnsentPacket` never occurs |
| TransportRuns.Perform | crates/reliable-core/src/connection.rs:246-331 | one call on the connection keeps its invariant; calls that send no acknowledgement and handle no timer do exactly what `Acts` says to state, queues, windows, records and log, and fail exactly when it says |
| TransportRuns.AckLink.DeliverAck | crates/reliable-core/src/connection/transport.rs:175-232 | an honest acknowledgement is never taken for one of an unsent packet; it fails exactly if a packet it overtakes has been sent as often as allowed, and is otherwise applied |
| Ledger.AllCounted | crates/reliable-core/src/connection/transport.rs:404-465 | the log holds each control frame that waits as often as its saturating counter says and each one on its way once more, and none more than the limit allows |
| Ledger.LedgerSent | crates/reliable-core/src/connection/transport.rs:404-442 | sending a frame and recording it keeps these counts |
| Ledger.LedgerGone | crates/reliable-core/src/connection/transport.rs:444-465 | so does a loss, whether the frame waits again or is given up |
| Transport.Connection.constructor | crates/reliable-core/src/connection.rs:74-101 | a new connection keeps the invariant, has sent nothing, and its window, flow control and clock are those of its configuration |
| Transport.Connection.StartTimers | crates/reliable-core/src/connection.rs:101-106 | the idle timer is set, and the keepalive timer if there is an interval, exactly when their deadlines are in range |
| Transport.Connection.ResetIdle | crates/reliable-core/src/connection.rs:624-626 | the idle timer set before is given up, and the new one fires after the idle timeout; every other timer stays |
| Transport.Connection.Flush | crates/reliable-core/src/connection/transport.rs:259-379 | an acknowledgement goes out first if one is due; then the frames whose turn it is, one after the other, each exactly once, until none is left or a window is closed for the very frame that is next, which goes back; windows, numbers, records and log are then those of these frames; without an acknowledgement due it fails exactly at a frame that cannot be encoded, numbered or timed |
| Transport.Connection.Round | crates/reliable-core/src/connection/transport.rs:305-376 | one round: the frame that is next goes out and changes exactly what it should, or goes back because a window is closed for it |
| Transport.Connection.SendFrame | crates/reliable-core/src/connection/transport.rs:305-376 | a frame is sent with the next number and recorded if it asks for an acknowledgement, or it goes back to where it came from and nothing else changes, because a window is closed for it; a chunk of stream data never fails to encode in datagrams of at least 67 bytes |
| Transport.Connection.RecordSent | crates/reliable-core/src/connection/transport.rs:404-442 | the packet enters the table under its number, the window shrinks by its length, and its timer fires after the retransmission timeout with its number and generation |
| Transport.Connection.TakeDataCandidate | crates/reliable-core/src/connection/transport.rs:381-386 | control frames first, in order; then the front of the stream with the smallest id that may send; none if and only if nothing may |
| Transport.Connection.TakeSendable | crates/reliable-core/src/connection/streams.rs:279-302 | retransmissions may go at any time, new data only within the window of its stream; the smallest id wins |
| Transport.Connection.RequeueCandidate | crates/reliable-core/src/connection/transport.rs:388-402 | what was popped goes back to the front of its queue |
| Transport.Connection.ApplyAck | crates/reliable-core/src/connection/transport.rs:175-232 | exactly the packets of the table covered by the ranges are done, in order; of the rest exactly those overtaken by enough acknowledged ones are lost and queued again; it fails exactly for malformed ranges, an unsent packet, or an overtaken packet that has been sent as often as allowed; chunks become acknowledged in no other way |
| Transport.Connection.LoseOvertaken | crates/reliable-core/src/connection/transport.rs:205-230 | exactly the packets with at least the threshold of acknowledged numbers above them are lost, in order of their numbers; it fails exactly if one of them has been sent as often as allowed |
| Transport.Connection.ProcessRetransmit | crates/reliable-core/src/connection/transport.rs:234-257 | an expired timer whose number and generation match a packet declares it lost; otherwise nothing happens |
| Transport.Connection.RequeueLost | crates/reliable-core/src/connection/transport.rs:444-465 | the frame goes to the front with its count raised by one, or the limit is reported, exactly when the count would exceed it |
| Transport.Connection.Write | crates/reliable-core/src/connection.rs:280-293 | the data is cut into chunks that fit a datagram and queued whole, exactly when the connection is established, the stream is known, was neither reset nor finished, and has room in its window and the send buffer; otherwise nothing changes and the error is the first that applies |
| Transport.Connection.IsReliablyFlushed | crates/reliable-core/src/connection/transport.rs:130-132 | true exactly when nothing waits and nothing is on its way; then every chunk ever written was acknowledged |
| Transport.Connection.AdvanceTime | crates/reliable-core/src/connection.rs:246-259 | every expired timer is processed once, none is left over, and what may be sent is sent |
| Transport.Connection.ProcessTimer | crates/reliable-core/src/connection.rs:548-606 | an expired retransmission event is dealt with and used up; an expired acknowledgement delay makes a pending acknowledgement ready; idleness starts closing, and only the close timeout closes |
| Transport.Connection.KeepAlive | crates/reliable-core/src/connection/transport.rs:168-173 | while established a ping with the next nonce is queued |
| Transport.Connection.Close | crates/reliable-core/src/connection.rs:317-331 | a connection that is not closed yet goes to closing and flushes; one that is closed stays so |
| Transport.Connection.OnPacket | crates/reliable-core/src/connection.rs:159-214 | refused when closed; otherwise the idle timer starts anew, the number is recorded, and is new exactly if the ranges did not hold it, an acknowledgement is scheduled if the packet asks for one, and what may be sent is sent |
| Transport.Connection.ScheduleAck | crates/reliable-core/src/connection/transport.rs:146-160 | an acknowledgement is pending, ready at once if there is no delay and otherwise once its timer fires; it fails exactly if that timer is needed and its deadline is out of range |
| Transport.ChunksFitIff | crates/reliable-core/src/connection.rs:620-622 | for datagram limits up to 65535 every chunk that `write` may cut fits, encrypted, whatever its id and offset, if and only if the limit is at least 67 |
| Transport.GivenUpIff | crates/reliable-core/src/connection/transport.rs:444-465 | a frame is given up after more losses than the limit allows, if and only if the limit is below the largest value of the saturating counter |
| Transport.PlainLengthIsEncoded | crates/udp-protocol/src/codec.rs:21-27 | the length counted for a packet is the length of what `encode_packet` produces, with the same errors |
| Transport.HandFirst | crates/reliable-core/src/flow_control.rs:25-35 | a chunk is accounted when it is sent first, and never when it is sent again |
| TransportModel.ExactlyOnePlace | crates/reliable-core/src/connection/transport.rs:187-257 | each chunk is in its queue, in the sent table or acknowledged, as the book says, and in one of them only |
| TransportModel.FlushedMeansAcked | crates/reliable-core/src/connection/transport.rs:130-132 | with queues and sent table empty every chunk was acknowledged |
| TransportModel.TimersMatch | crates/reliable-core/src/connection/timers.rs:28-47 | sent packets and live retransmission timers correspond one to one, by number and generation |
| TransportModel.CountedIff | crates/reliable-core/src/congestion.rs:34-40 | packets of at most a given length that may be sent are all counted exactly, if and only if the window is below the largest value of the saturating counter or the counter has room for one more of that length |
| TransportModel.WindowKept | crates/reliable-core/src/congestion.rs:38-62 | sending, acknowledgement and loss keep the window between its bounds; acknowledgement never shrinks it, loss never opens it |
| Timers.TimerState.Advance | crates/reliable-core/src/connection/timers.rs:28-35 | the events of exactly the timers that expired, each once; the clock moves by the elapsed time |
| Timers.TimerState.Schedule | crates/reliable-core/src/connection/timers.rs:41-47 | one more live timer under a new id, with the deadline of its delay |
| Timers.TimerState.ScheduleIdle | crates/reliable-core/src/connection/timers.rs:66-70 | the idle timer set before is given up, and the new one fires after the delay |
| Timers.TimerState.CancelAll | crates/reliable-core/src/connection/timers.rs:100-108 | no timer is left |
| AckRanges.ReceivedPackets.Record | crates/reliable-core/src/ack.rs:19-50 | false exactly for a number that is held; a new one leaves the ranges merged with it, or all but the lowest of these if there are 33, and the floor rises just past the range dropped; ranges hold only received numbers, and all of them from the floor on |
| AckRanges.CanonicalUnique | crates/reliable-core/src/ack.rs:74-87 | descending ranges that are apart are determined by the numbers they cover, so merging has one result |
| AckRanges.Forgotten | crates/reliable-core/src/ack.rs:46-48 | after 33 numbers, none next to another, the lowest is recorded as new again |
| AckRanges.ReceivedPackets.MergeAdjacent | crates/reliable-core/src/ack.rs:74-87 | neighbouring ranges are joined, and exactly the same numbers are covered |
| AckRanges.ReceivedPackets.Frame | crates/reliable-core/src/ack.rs:56-72 | the frame acknowledges exactly what is held, and fails only for a delay beyond 64 bits of microseconds |
| AckRanges.FromDescending | crates/udp-protocol/src/ack.rs:74-103 | the same answer as the declarative check of the ranges, in the same order of errors |
| AckWire.AckRoundTrip | crates/udp-protocol/src/ack.rs:106-198 | an ACK that encodes decodes to itself, but for the part of its delay below a microsecond |
| Varint.RoundTrip | crates/udp-protocol/src/varint.rs:28-72 | whatever follows a varint (section 16 of RFC 9000), decoding returns the value and stops right behind it |
| Frames.FrameRoundTrip | crates/udp-protocol/src/frame.rs:194-520 | every frame of the 13 kinds that encodes decodes to itself, up to the precision of an ACK delay |
| Packets.PacketRoundTrip | crates/udp-protocol/src/codec.rs:87-258 | for every checksum function and every packet that encodes, the datagram stays within the limit and decodes to the packet, up to the precision of ACK delays |
| Packets.ExactRoundTripIff | crates/udp-protocol/src/codec.rs:87-258 | the round trip is exact if and only if every ACK delay is a whole number of microseconds |
| Packets.WriteFrames | crates/udp-protocol/src/codec.rs:87-108 | the loop writes what the recursive definition says, error by error |
| Packets.ReadFrames | crates/udp-protocol/src/codec.rs:344-383 | the loop reads what the recursive definition says, error by error |
| Packets.ChunkFits | crates/reliable-core/src/connection.rs:620-622 | a chunk of the largest size fits its datagram, encrypted or not, from 67 bytes on |
| Reencoding.VarintReencodes | crates/udp-protocol/src/varint.rs:41-72 | encoding a decoded varint gives its bytes back if and only if it was as short as possible |
| Reencoding.ReencodesIff | crates/udp-protocol/src/codec.rs:144-258 | a decoded packet always encodes again, into no more bytes, and into the same bytes if and only if every varint of the payload was minimal |
| Reencoding.PaddedPacket | crates/udp-protocol/src/codec.rs:144-150 | for every checksum function: a packet that decodes and is not what encoding produces |
| ReplayWindow.CheckAll | crates/udp-protocol/src/crypto.rs:289-325 | over any sequence of packet numbers no number is accepted twice, and each is refused as a duplicate exactly if it was accepted before, as too old exactly if it is 4096 or more behind the highest accepted, and accepted otherwise |
| ReplayWindow.ReplayWindow.CheckAndMark | crates/udp-protocol/src/crypto.rs:289-325 | the bitmap answers as the set of accepted numbers does, and then represents the new set |
| ReplayWindow.ReplayWindow.ShiftOlderBits | crates/udp-protocol/src/crypto.rs:328-343 | the in-place shift over words is the shift of the 4096-bit vector |
| ReplayWindow.WindowShifted | crates/udp-protocol/src/crypto.rs:328-343 | shifting word by word, with the bits carried from the word below, moves every position by the same distance |
| ResumeSystem.RunResume | crates/transfer-core/src/session.rs:412-512 | for any loss, duplication and reordering and any number of reconnects of either side: every byte the accepter writes is the source's byte at that place, every stored file is a prefix of its source and equals it once complete, the store never refuses a write, and completion and the accepter's durable progress never go back |
| ResumeSystem.ResumeLink.ChunkArrives | crates/transfer-core/src/session.rs:1204-1224 | whenever the accepter takes a chunk the store writes it: no conflict, no gap, no early FIN |
| Session.TransferSession.HandleData | crates/transfer-core/src/session.rs:928-999 | only the next bytes of the active stream are taken; earlier ones are duplicates; a FIN before the end is an error that leaves the received offset moved |
| Session.TransferSession.HandleDataWithStorage | crates/transfer-core/src/session.rs:1204-1224 | accepted bytes are written at their absolute offset; exactly a write that the store refuses fails the session |
| Session.TransferSession.QueueData | crates/transfer-core/src/session.rs:820-867 | bytes are queued exactly when they are the next of an active file, with FIN only at its end |
| Session.TransferSession.HandleFileBegin | crates/transfer-core/src/session.rs:869-926 | a file begins exactly when it is unfinished, without a stream, within the limit of active files and named with its own hash, rest and durable offset |
| Session.TransferSession.StartPendingFiles | crates/transfer-core/src/session.rs:778-791 | pending files are started in order of their ids while there are places, each on a new stream from its durable offset |
| Session.TransferSession.HandleResumeState | crates/transfer-core/src/session.rs:734-776 | the accepter's position is taken over exactly when it fits, and then pending files are started; otherwise nothing changes |
| Session.TransferSession.HandleResumeQuery | crates/transfer-core/src/session.rs:692-732 | succeeds if and only if this side is the accepter, the file is known with this hash and size, and it is complete or the session may resume it now; the answer is the durable position, or a complete file is reported again |
| Session.TransferSession.RespondWithStorage | crates/transfer-core/src/session.rs:1226-1236 | succeeds if and only if the store knows the file, its position fits, and the query does; the position is taken over even when the query does not fit |
| Session.TransferSession.HandleReceiveDecision | crates/transfer-core/src/session.rs:655-690 | only an offerer that waits for it acts on the decision; acceptance asks for the position of every file |
| Session.TransferSession.HandleManifestItem | crates/transfer-core/src/session.rs:579-615 | an item is taken exactly when its path is safe, its id is new and a place is left |
| Session.TransferSession.HandleManifestEnd | crates/transfer-core/src/session.rs:617-653 | the manifest is installed exactly when it is all there and acceptable, and at most once |
| Session.TransferSession.CheckpointFile | crates/transfer-core/src/session.rs:1001-1035 | a checkpoint is taken and reported exactly when it lies within what was received and does not go back |
| Session.TransferSession.SetDurableState | crates/transfer-core/src/session.rs:1273-1295 | a position found in storage is taken exactly when it lies within the file and does not go back, on either side |
| Session.TransferSession.CheckpointWithStorage | crates/transfer-core/src/session.rs:1238-1259 | a checkpoint that the session reports is durable in the store |
| Session.TransferSession.CompleteFile | crates/transfer-core/src/session.rs:1076-1120 | a file completes exactly when it was all received, is durable and matches size and hash; it is counted once, reported, and the last one completes the transfer |
| Session.TransferSession.CompleteWithStorage | crates/transfer-core/src/session.rs:1261-1271 | succeeds exactly for an accepter whose session and store agree that the file is done or may be; the store moves a file with the announced hash into place before the session counts it; an offerer is refused only after its store has acted |
| Session.TransferSession.HandleFileCompleteAck | crates/transfer-core/src/session.rs:1122-1153 | an acknowledgement that fits completes the file, counts it and gives its place to pending ones; any other changes nothing |
| Session.TransferSession.HandleRemoteCheckpoint | crates/transfer-core/src/session.rs:1037-1074 | the offerer takes a checkpoint exactly when it is newer, does not go back and lies within what was sent |
| Session.TransferSession.HandleTransferComplete | crates/transfer-core/src/session.rs:1165-1188 | an offerer completes if and only if it waits for this and both sides count the same files and bytes |
| Session.TransferSession.HandleTransferError | crates/transfer-core/src/session.rs:1190-1202 | an error that is not retryable fails the session whatever its state; any other reconnects it |
| Session.TransferSession.Reconnect | crates/transfer-core/src/session.rs:1297-1385 | streams are given up and reception goes back to what is durable; an offerer sends its manifest again and asks for every incomplete file, an accepter that has completed reports it again |
| Session.ReconnectStrands | crates/transfer-core/src/session.rs:1297-1385 | an offerer that reconnects with every file complete never completes the transfer, whatever it hears and does afterwards |
| Session.ReconnectRecovers | crates/transfer-core/src/session.rs:1297-1385 | an offerer that reconnects with a file missing, and with stream ids left, can still complete |
| Session.EveryFileComplete | crates/transfer-core/src/session.rs:1556-1558 | whenever the counters say so, or the session has completed, every file is complete and every byte is counted |
| SessionCases.FailedReceives | crates/transfer-core/src/session.rs:869-926 | an accepter that has failed begins to receive a file all the same |
| SessionCases.DurableFalls | crates/transfer-core/src/session.rs:734-776 | the durable offset that an offerer keeps for a file falls from 5 to 3 under a newer checkpoint id |
| Storage.FileStorage.WriteData | crates/transfer-storage/src/storage.rs:425-500 | a write succeeds exactly when it starts within the file, stays within its size and agrees with what is there; then only the part past the end is appended |
| Storage.FileStorage.Checkpoint | crates/transfer-storage/src/storage.rs:502-567 | a checkpoint is taken exactly when it lies within what is stored and does not go back; the bytes stay |
| Storage.FileStorage.Complete | crates/transfer-storage/src/storage.rs:569-685 | a file is moved into place exactly when all of it is stored, checkpointed and hashes to what was announced |
| Storage.TrueBytes | crates/transfer-storage/src/storage.rs:425-500 | true bytes at a position the file has reached never conflict and keep it a prefix of the source |
| Manifest.NewManifest | crates/transfer-core/src/manifest.rs:43-76 | succeeds exactly for entries with distinct ids, safe distinct paths and a total size within 64 bits, and otherwise blames the first entry that breaks a rule |
| RelayQuota.RunKeeps | crates/transfer-server/src/server.rs:980-1028 | in every interleaving of atomic operations every counter stands for the reservations made on it, modulo 2^64, and within its limit |
| RelayQuota.WithinLimits | crates/transfer-server/src/server.rs:1012-1028 | a counter with a limit is exactly what is reserved on it and never above the limit |
| RelayQuota.RefusedOnlyWhenFull | crates/transfer-server/src/server.rs:980-1028 | a reservation is refused or rolled back exactly when the counter has no room at that moment |
| RelayQuota.BalancedIff | crates/transfer-server/src/server.rs:980-1028 | once no request is under way the session counters sum to the server's, the metric and what was relayed, if and only if fewer than 2^64 bytes were relayed altogether |
| RelayQuota.QuiescentSums | crates/transfer-server/src/server.rs:980-1028 | with a server limit they always do |
| RelayQuota.AloneCommits | crates/transfer-server/src/server.rs:937-1010 | where there is no server limit the first request of a session is committed |
| RelayQuota.UnlimitedUnbalances | crates/transfer-server/src/server.rs:937-1010 | without a server limit, requests of any size that a session may make, each a single read, unbalance the counters once they pass 2^64 bytes together |
| RelayQuota.LimitDecides | crates/transfer-server/src/server.rs:1012-1016 | a configuration keeps its counters balanced in every run if and only if it sets a server limit |

## Findings

Where the obvious claim is not what the code does, the code is modelled as it is and the exact condition is proved.

- Relay counters. With `totalLimit` 0 (unlimited) a reservation adds with wrap-around, so counters of a server
  that relayed 2^64 bytes or more no longer balance. `RelayQuota.BalancedIff` gives the condition for every
  run, `RelayQuota.LimitDecides` the one a configuration can check, and `RelayQuota.UnlimitedUnbalances` the
  failing family: any number of ordinary reads that together pass 2^64 bytes.
- Reconnecting after the last file. `reconnect` puts an offerer back to awaiting resume even when every file is
  complete; nothing leads from there to awaiting the peer's report, so it never completes
  (`Session.ReconnectStrands`; the empty manifest is the smallest case). With a file missing it can
  (`Session.ReconnectRecovers`): after a reconnect completion is possible if and only if a file is missing.
- Small datagrams. Validation admits datagram limits from 30 on, but the least chunk of stream data needs up to
  67 bytes (`Transport.ChunksFitIff`). Below that limit a flush may fail to encode data it has accepted.
- Retransmission limit. The counter saturates, so a limit of 4294967295 never gives a frame up
  (`Transport.GivenUpIff`). Likewise the counter of bytes in flight saturates: for datagrams of at most 65535
  bytes it is exact if and only if the congestion window is below 2^64 - 1 or at most 2^64 - 65536 bytes are in
  flight (`TransportModel.CountedIff` with that limit).
- Decoding is lenient. A varint that is longer than necessary is accepted, so a packet that decodes need not be
  what encoding produces (`Reencoding.ReencodesIff`, `Reencoding.PaddedPacket`). ACK delays lose what is below a
  microsecond (`Packets.ExactRoundTripIff`).
- Recorded before processed. A packet is recorded, and so acknowledged sooner or later, before its frames are
  processed (connection.rs:169-205 of reliable-core). If processing then fails, for instance because stream
  data overtook the frame that opens its stream, the data is acknowledged although the peer does not hold it:
  `Undelivered.DataLost` is such a run with the default configuration, at the end of which the sender is
  reliably flushed. The exact condition is one on each packet as it arrives (`StreamAccounting.Admits`: stream
  open, room in its window, its buffer and the connection's window): nothing is refused if and only if every
  recorded data packet met it, and a stream is delivered if and only if each of its chunks went out in a packet
  that met it (`DataRuns.RunData`). It is met by every run in which data arrives after its stream was opened,
  the sender's windows never end past the peer's, and no stream's window exceeds the buffer; these are
  conditions on each step, checked before it (`DataRuns.RunGranted`, by `Grants.GrantedAdmits`). The endpoint
  closes the connection after such an error, unless it is a protocol error or a foreign connection id
  (crates/reliable-udp/src/event_loop.rs:234-243), so an application is told that the connection ended.
- Forgetting. Beyond 32 ranges exactly the lowest is dropped (`AckRanges.ReceivedPackets.Record`), and its
  numbers count as new again: `AckRanges.Forgotten` is a run of 33 numbers after which the first is taken once
  more. The stream layer takes repeated frames without harm.
- FIN before the end. The accepter moves the received offset before it looks at FIN
  (`Session.TransferSession.HandleData`); that no such chunk exists rests on `queue_data`
  (`ResumeSystem.ResumeLink.ChunkArrives`).
- Session states are not absorbing: `SessionCases.FailedReceives` fails a session and then begins to receive a
  file with it. Only completion of files and the accepter's durable progress are monotone; an offerer's durable
  offset may fall under a newer checkpoint id (`SessionCases.DurableFalls`).

## Left out

- The event loop, sockets, polling, path selection, pairing, tickets, probing, user interfaces and configuration loading: input and output, clocks and randomness.
- Key exchange, key derivation, encryption and the handshake: the handshake is one step to the established state, a handshake timeout does nothing, and encryption appears as the 16-byte tag it adds. CRC32C is a parameter that the codec theorems quantify over.
- The encrypted decoding path, apart from that length and the replay window.
- The RTT estimator: each step is given an arbitrary retransmission timeout.
- The transfer message codec and resume tickets: a second round trip of the same kind.
- The file system behind storage: files are byte sequences; renames, syncs, links, metadata, on-disk state and crash recovery are not modelled. The digest function is a parameter.
- Storage.FileStorage.Complete: a file that is complete already is accepted without looking at the installed file again, and the branch that finds the file already moved is not modelled.
- A storage record that is complete before a fresh accepter session starts: `ResumeSystem.RunResume` starts from records that hold any true prefix of their source and are not complete.
- Session.TransferSession.HandleTransferError: only whether the error is retryable is modelled, not its code and message.
- Session.ReconnectRecovers: it exhibits one continuation by which the transfer completes; it does not say that every peer takes it.
- Slot-map keys come from a counter and are never used again, where the program packs a generation into them.
- In the wheel the statements that would roll back an insert after an internal inconsistency cannot be reached, which is proved, and are not modelled.
- In Transport the sending halves of streams are values in a map; SendStream gives the object, whose methods are proved to take the same steps on that value.
- Transport.Connection.Write: ids and offsets below 2^62 are required, the range a varint can hold; the program fails to encode later where the model excludes the call.
- After the first error of a call on a connection nothing is claimed, as the program closes it.
- Transport.Connection.constructor: that of a server; a client's also starts the handshake, which is not modelled.
- Transport.Connection.ProcessTimer: a handshake timeout does nothing, since there is no handshake to repeat or give up.
- Transport.Connection.OnPacket: what the frames of the packet do is not part of it; acknowledgements are applied by `ApplyAck`, stream data by `ProcessStreamData`, and an error of either, which the program reports before it flushes, is an error of those.
- The limit on the number of streams, and frames other than stream data, acknowledgements and the queued control frames at the receiving side.
- Progress under connection flow control: the peer's `MaxData` is never queued, and `StreamOpen` carries the peer's window rather than the opener's own, so no agreement of windows and no liveness is claimed.
- DataRuns.RunData: nothing is claimed of a stream that was reset, except that reads end with its code; and the peer goes on after an error, where the endpoint would close the connection.
