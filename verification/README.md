# The Open-MX user library, modelled and proved in Dafny

This project models the parts of `libopen-mx` where the behaviour is hardest to
see from one function at a time, and proves what the library relies on there.

**Reliable messaging.** A message travels over a network that loses, duplicates
and reorders packets. Fields are 16 bits wide: 14 bits of sequence number under
2 bits of session. Every specification keeps the unbounded number beside the
field.

- `SeqNum` proves when the masked comparisons agree with the unbounded ones, and
  that the bounds used are exact. `RecvSpec` is the receiving side on unbounded
  numbers; `Partners` is the partner structure of the library on its 16-bit
  fields, each method proved to refine it.
- `Protocol` puts one sender, one receiver and the network together as a state
  machine over all runs inside one session, without nack or cleanup: exactly
  once, in order. `Progress` shows that no reachable state is stuck. What is
  assumed of the network is in `Protocol.Enabled`: a data packet is at most
  16128 numbers behind the next expected message and an ack at most 8192 stale.
  `SeqNum.AgeBoundIsExact` and `SeqNum.AckIsMax` show that the code is wrong
  beyond the exact bounds.
- `SenderModel`, `SlotsModel`, `SendqMapModule` and `EndpointModule` are the sending
  side of an endpoint: the queues named by the state bits of a request, the throttling
  window, the waiting queues, credits for expected events and for large sends,
  the send slots, acks and resends. `Endpoint` is the class with the library's
  methods; its invariant, `SenderModel.Inv`, says among other things that
  requests wait for a number only while the window is exactly full (8191), that
  credits held and available add up to a constant, and that user sends get their
  numbers in the order of the API calls.
- `EventRingModule` is the ring of expected events with the driver's half of it, and
  `ExpectedEvents` puts ring and endpoint together: every event the driver may still
  report has a credit, so that the ring is never full when it reports one.
- `Resend` is the whole resend pass, with timeouts that reset a partner and start the
  walk again, shortage of credits, and the queue of requests the driver is sending.
  `AckSched` is the scheduling of acks.
- `Segments`, `Fragments` and `Medium` are the bytes of a message: scatter and
  gather with saved cursors, cutting a message into send slots and putting it
  together again. `Checksum` is the debugging checksum as the remainder of a long
  division.
- `Delivery` is `Protocol` on bytes: what is in the buffer of each receive, for every
  run and every choice of receives. `Connection` puts the classes together, `Endpoint`
  as the sender and `Partner` as the receiver: whatever their methods do is a run of
  `Delivery`, so that each completed receive holds the first bytes of the request that
  was sent under its number.
- `Matching` is the matching of receives and messages: the index by context id
  against one queue for all.
- `RegCacheModule` is the map of region slots and the registration cache.

**The allocator.** `dlmalloc.c` on one segment, with a system that refuses more
memory.

- `Bits`, `TreeIndex` and `Digits` are the arithmetic of bins and bit maps.
- `Trie` has the bitwise trees as values; `TrieMemory` and `TrieUnlink` show that
  the pointer writes of insertion and unlinking turn a tree in memory into the
  tree they should; `BestFit` is why the search finds the best fit; `TreeBinsModule`
  has the class with the 32 bins; `SmallBinsModule` the other one.
- `HeapModule` is the segment as boundary tags describe it. `MspaceModule` has the class with
  `mspace_malloc` and `mspace_free`, `Memalign` adds aligned allocation. The
  invariant, `Mspace.Valid`, is that of the library's own checking functions:
  chunks tile the segment, the bits and feet agree, no two free chunks touch, and
  every free chunk is exactly one of top, the designated victim or listed in the
  bin of its size.
- These keep heads, feet, tree and list links in a map each. `OneMemory` lays them out
  at their addresses in the chunks, over one another's payload, and proves that this
  makes no difference.

Facts that came out of the proofs and that the source does not say. Each has an
input that shows it and the exact condition under which the code does as meant:

- A stale data packet 16129 numbers behind is taken for an early one
  (`SeqNum.StalePacketLooksNew`, `SeqNum.AgeBoundIsExact`), and a delayed ack of 3616
  for a new one when 12000 are acked and 20000 is the next
  (`SeqNum.StaleAckLooksNew`, `SeqNum.AckIsMax`).
- The search for the place of a fragment in a vectored medium receive, and the copy
  after it, may leave the segments when the buffer is shorter than the message. For a
  receive posted first, no order of the fragments does that if and only if the last
  fragment starts before the end of the buffer, or at the end and the last segment is
  empty (`Medium.PostedStaysInside`). With 2000 bytes for a message of 8192 every run
  with the second fragment leaves them, with 4096 bytes the fragments in order do
  (`Medium.TruncatedVectorRunsOff`, `Medium.FullVectorRunsOff`).
- A vectored receive that takes over an unexpected message of which the first fragment
  is still missing copies that one through a place never set for its segments
  (`Medium.LateVectorRunsOff`, `Medium.TakenOverStaysInside`).
- An empty copy at the saved offset looks at a segment first, also from behind the last
  one (`Segments.EmptyCopyLeavesSegments`, `Segments.LeavesSegments`).
- When the driver refuses a fragment of a first post that is not the last one, the loop
  that copies the rest never returns (`SenderModel.RefusedPostLoopsForever`,
  `SenderModel.PostReturnsIff`).
- In a resend pass the remark that the requests behind the first recent one are more
  recent does not hold: a mediumsq the driver refused entirely goes behind the others
  with its old time, and so does one the driver is done with late
  (`Resend.RefusedIsPassedOver`, `Resend.DriverDoneIsBehind`). `Resend.StopIsSafeIff`,
  `Resend.PassKeepsAgeIff` and `Resend.JoinKeepsAgeIff` say exactly when it does. A
  request refused every time never times out (`Resend.TimesOutIff`).
- After a match, a packet of the next expected message may stay among the early ones
  (`RecvSpec.DueStaysBehind`, `RecvSpec.DueStaysIff`).
- For a small request the bins are asked before the victim only for an exact or
  next-bin fit, and a chunk of 256 bytes is in no small bin: a request of 248 takes the
  victim instead, where one of 240 takes the chunk of 248
  (`MspaceModule.FirstTreeSizePassedOver`; `MspaceModule.GoodChoice` is the rule).
- The loop that rounds an alignment up to a power of two ends if and only if the
  alignment is at most 2^63 (`Memalign.RoundingEndsIff`, `Memalign.RoundingLoopsForever`).

Constants are those of the library's defaults: fragments of 4096 bytes and at most
32 of them, rings and send queue of 1024 entries, 256 regions; sizes are 64-bit,
the alignment of chunks is 8. Integers are unbounded in the specifications, and
every wrap of the source is written out where it matters (`SeqNum.Wire`,
`EventRingModule.Index32`, `BestFit.Remainder`, `Digits.ShiftOne`,
`TreeIndex.Shl32`).

Requests, partners and chunks are named by numbers. The intrusive lists of the
library are sequences of those numbers; those of the allocator are links in memory. The calls into the driver are parameters
that say what it answered: how many fragments it took, whether a region could be
registered, whether an ack could be sent. So is the clock.

## Model

| member | source | states |
|---|---|---|
| `SeqNum.IncreaseIsWire` | libopen-mx/omx_types.h:91-101 | Increasing a 16-bit field follows the unbounded number it carries, and the session bits survive every wrap. |
| `SeqNum.WireDifference` | libopen-mx/omx_types.h:83 | The masked difference of two fields of one session is the difference of the numbers modulo 2^14, hence the exact difference while it is non-negative and below the range. |
| `SeqNum.ClassifyAgrees` | libopen-mx/omx_recv.c:782-833 | While a packet is at most 16128 behind and inside the sender's window, the masked tests call it matching, within, early, previous or obsolete exactly as comparison of unbounded numbers does. |
| `SeqNum.AgeBoundIsExact` | libopen-mx/omx_recv.c:782-833 | Over a whole wrap, an already received number is recognised as such if and only if it is at most 16128 behind. |
| `SeqNum.StalePacketLooksNew` | libopen-mx/omx_recv.c:817-833 | One step past that bound a stale packet is taken for an early one. |
| `SeqNum.AckIsMax` | libopen-mx/omx_ack.c:94-130 | The ack test moves the field to the larger of the two numbers if and only if the ack is not so stale that it looks new. |
| `SeqNum.StaleAckLooksNew` | libopen-mx/omx_ack.c:94-130 | One that stale: with next_send 20000 and next_acked 12000, a delayed ack of 3616 moves the field to next_send. |
| `SeqNum.HalfRangeIsSafe` | libopen-mx/omx_ack.c:94-130 | An ack at most 8192 behind is always safe, whatever the window holds. |
| `Fragments.CompleteIffAllBytes` | libopen-mx/omx_recv.c:378-400 | The accumulated length equals the message length exactly when every fragment has come, in any order; it never exceeds it. |
| `RecvSpec.InsertEarlyKeepsOrder` | libopen-mx/omx_recv.c:62-140 | Queueing an early packet keeps the queue strictly sorted by message and fragment, loses nothing, and drops exactly duplicates. |
| `RecvSpec.InsertAtIsInsertEarly` | libopen-mx/omx_recv.c:88-140 | Scanning from the back finds the place that insertion from the front would. |
| `RecvSpec.InsertEarlyOk` | libopen-mx/omx_recv.c:143-222 | The queue stays within 255 of the next expected message. |
| `RecvSpec.OrderedKeeps` | libopen-mx/omx_recv.c:693-734 | A packet that is not early keeps the receiver's invariant; only the expected one advances the match number, by one, and only if there was memory for it; the fragment number never goes back. |
| `RecvSpec.OrderedTests` | libopen-mx/omx_recv.c:699-723 | The two masked tests of ordered processing decide as integers would. |
| `RecvSpec.DueStaysIff` | libopen-mx/omx_recv.c:796-815 | After a match a packet of the next expected message stays among the early ones if and only if there was an early packet of the message between, which was taken. |
| `RecvSpec.DueStaysBehind` | libopen-mx/omx_recv.c:796-815 | With 2 and 3 early, message 1 brings 2 out, 3 is expected then, and stays. |
| `Partners.Partner.FindPreviousEarly` | libopen-mx/omx_recv.c:62-140 | The backward scan on masked indexes returns the place, or the duplicate, that the sorted queue requires. |
| `Partners.Partner.PostponeEarly` | libopen-mx/omx_recv.c:143-222 | An early packet is queued in order, once, or dropped when there is no memory. |
| `Partners.Partner.ProcessMediumFrag` | libopen-mx/omx_recv.c:311-434 | A fragment of a queued or fresh request updates mask, length and completion as the unbounded model says. |
| `Partners.Partner.UpdateNextFrag` | libopen-mx/omx_recv.c:631-645 | The next fragment number becomes the first partial request's, or the next match number when there is none. |
| `Partners.Partner.FindPartial` | libopen-mx/omx_recv.c:667-689 | The search by masked index, ended by a later request, finds the partial request with that number if there is one. |
| `Partners.Partner.ContinuePartial` | libopen-mx/omx_recv.c:667-689 | A fragment of a matched message goes to its request, or is ignored when that is complete. |
| `Partners.Partner.TryMatchNext` | libopen-mx/omx_recv.c:492-628 | The expected message is accepted, or refused without effect when memory is lacking. |
| `Partners.Partner.ProcessOrdered` | libopen-mx/omx_recv.c:693-734 | On the 16-bit fields, a packet that is not early has exactly the effect of the unbounded model. |
| `Partners.Partner.DrainEarly` | libopen-mx/omx_recv.c:796-815 | The loop over early packets, with its limit computed once, takes exactly those numbered at most one past the message just matched, in order. |
| `Partners.Partner.ProcessInOrder` | libopen-mx/omx_recv.c:786-815 | A packet that is not early, followed by the early ones it makes due. |
| `Partners.Partner.ProcessRecv` | libopen-mx/omx_recv.c:737-836 | Whole packet processing on the 16-bit fields refines the unbounded receiver; packets of another session change nothing. |
| `Protocol.StepKeeps` | libopen-mx/omx_recv.c:737-836 | Every step of sender, network and receiver keeps the system invariant. |
| `Protocol.DrainKeeps` | libopen-mx/omx_recv.c:796-815 | Taking out due early packets keeps the receiver consistent with what was sent and leaves only packets that are not yet due. |
| `Protocol.ExactlyOnceInOrder` | libopen-mx/omx_recv.c:692-837 | For every run with loss, duplication, reordering, resends and acks: matched messages are a prefix of those sent, next_acked <= next_frag <= next_match <= next_send, and every message below next_frag (so every acked one) completed exactly once with all its fragments delivered. |
| `Protocol.WireDecisionsAreExact` | libopen-mx/omx_recv.c:782-833 | In every reachable state the 14-bit decisions on data and on acks are the unbounded ones. |
| `Protocol.ReceiverIsAlwaysReady` | libopen-mx/omx_recv.c:737-836 | In every reachable state the receiver's invariant holds and each packet the network may deliver satisfies what the methods of the partner require. |
| `Progress.CompleteHead` | libopen-mx/omx_send.c:1417-1506 | Posting and delivering the fragments of the first missing message completes it. |
| `Progress.NoReachableStateIsStuck` | libopen-mx/omx_send.c:1417-1506 | From every reachable state some continuation matches, completes and acks everything sent so far. |
| `Segments.FlatPiece` | libopen-mx/omx_segments.h:204-206 | A stretch of a segment is the stretch of the flattened buffer at the segment's start. |
| `Segments.WriteInSegment` | libopen-mx/omx_segments.h:236-238 | Writing inside one of several disjoint segments is writing in the flattened buffer, and changes no other byte of it. |
| `Segments.ContinueCopyFrom` | libopen-mx/omx_segments.h:180-220 | Gathering from a saved cursor delivers the bytes that follow its position, to the right place, and leaves the cursor behind them. |
| `Segments.ContinueCopyTo` | libopen-mx/omx_segments.h:222-256 | Scattering at a saved cursor overwrites exactly the bytes that follow its position and leaves the cursor behind them. |
| `Segments.SearchEnds` | libopen-mx/omx_segments.h:274-279 | The search, which asks of no segment whether there is one, ends inside the segments if and only if the offset is not past their end, and then denotes the offset. |
| `Segments.WalkEnds` | libopen-mx/omx_segments.h:222-256 | A copy from a cursor, which looks at a segment even when nothing is to be copied, leaves the segments if and only if it starts behind the last one; one that fills them ends behind them, unless the last is empty. |
| `Segments.LeavesSegments` | libopen-mx/omx_segments.h:263-286 | A partial copy leaves the segments exactly if its offset is past their end, or its saved place is reused and was never set, or is reused for an empty copy from behind the last segment. |
| `Segments.EmptyCopyLeavesSegments` | libopen-mx/omx_segments.h:263-286 | Two segments of 2048 bytes filled by the first fragment: the empty copy for the second one starts behind them. |
| `Segments.Rescan` | libopen-mx/omx_segments.h:274-281 | The loop finds the place the search defines, for every offset. |
| `Segments.PartialCopyTo` | libopen-mx/omx_segments.h:263-286 | The place afterwards is the one defined for every saved place and offset, nowhere included; where it is inside, the data landed at the offset of the flattened buffer and the saved place denotes the saved offset. |
| `Segments.CopyTo` | libopen-mx/omx_segments.h:113-130 | Copying from the beginning overwrites the front of the flattened buffer. |
| `Checksum.ChecksumByte` | libopen-mx/omx_segments.h:304-317 | The loop over the eight bits of one byte shifts the register of the checksum. |
| `Checksum.CrcIsRemainder` | libopen-mx/omx_segments.h:293-325 | The checksum of a message is the remainder of its bits, as a polynomial times x^16, in the long division by x^16 + x^12 + x^5 + 1. |
| `Checksum.BurstsDetected` | libopen-mx/omx_segments.h:293-325 | Two messages that differ only within 16 consecutive bits have different checksums. |
| `Segments.ChecksumSegments` | libopen-mx/omx_segments.h:291-324 | The checksum is a function of the flattened bytes alone, however they are cut, and of no more than the length asked. |
| `Medium.CompletesExactlyOnce` | libopen-mx/omx_recv.c:311-434 | For every sequence of fragments, with duplicates, and a receive posted before, between or after them, the message completes once if the receive and all fragments are there, and otherwise not at all. |
| `Medium.FilledMore` | libopen-mx/omx_recv.c:350-362 | The part of a fragment that is copied is the whole of it as far as the buffer goes. |
| `Medium.FilledAll` | libopen-mx/omx_recv.c:350-400 | Once all fragments are there, the transferred bytes are the first ones of the message. |
| `Medium.CompletedData` | libopen-mx/omx_recv.c:30-55 | A completed receive holds the first min(buffer, message) bytes of the message, and is shorter than the message iff the buffer is. |
| `Medium.SegmentsToSegments` | libopen-mx/omx_recv.c:410-418 | Gathering at the sender then scattering at the receiver is the identity for any two segmentations, so that the debugging checksum of an untruncated receive agrees. |
| `Medium.StaysInsideIff` | libopen-mx/omx_recv.c:349-362 | A run of distinct fragments keeps every partial copy inside the segments if and only if the first one starts inside or at the end, and each next one starts inside, or at the end and not right behind its predecessor or with an empty last segment. |
| `Medium.AnyOrderIff` | libopen-mx/omx_recv.c:349-362 | All orders of the fragments to come stay inside if and only if there is room for each of them, and the first one is not to come for a scan that was never set. |
| `Medium.PostedStaysInside` | libopen-mx/omx_recv.c:349-362 | For a vectored receive posted before the message every order stays inside if and only if the last fragment starts before the end of the segments, or at the end and the last segment is empty. |
| `Medium.TakenOverStaysInside` | libopen-mx/omx_recv.c:1095-1192 | For one that takes over an unexpected message: if and only if the first fragment came before and there is room for those to come. |
| `Medium.TruncatedVectorRunsOff` | libopen-mx/omx_recv.c:349-362 | 2000 bytes for a message of 8192: every run with its second fragment leaves the segments. |
| `Medium.FullVectorRunsOff` | libopen-mx/omx_recv.c:349-362 | 4096 bytes for a message of 8192: fragments in order leave the segments, the other way round they do not. |
| `Medium.LateVectorRunsOff` | libopen-mx/omx_recv.c:1095-1192 | When only the second fragment came before the receive, the first one is copied through a place that was never set. |
| `Medium.MediumRecv.Expected` | libopen-mx/omx_recv.c:580-600 | A matched receive starts with nothing received and its transfer length the smaller of buffer and message. |
| `Medium.MediumRecv.Unexpected` | libopen-mx/omx_recv.c:603-625 | An unmatched message starts with a buffer of its own length. |
| `Medium.MediumRecv.CopyFrag` | libopen-mx/omx_recv.c:349-362 | Says exactly when the copy stays inside the segments; then the bytes of the fragment that fit are placed at its offset and nothing else changes. |
| `Medium.MediumRecv.ProcessFrag` | libopen-mx/omx_recv.c:311-434 | A duplicate changes nothing; a new fragment, for any buffer, stays inside the segments exactly if its partial copy does, and is then placed and counted; the receive completes with the last one if it is posted. |
| `Medium.MediumRecv.Bind` | libopen-mx/omx_recv.c:1095-1192 | A receive of any segments that takes an unexpected message over, complete or not, gets what was received so far, and completes at once iff nothing is missing; the place of its scan is not set. |
| `Medium.CutMore` | libopen-mx/omx_send.c:501-540 | One more fragment in its slot of the send queue leaves those of the others. |
| `Medium.CutMessage` | libopen-mx/omx_send.c:439-540 | Fragment k of the message is in slot k of the request, from one segment or several, and no other slot of the send queue is touched. |
| `Delivery.OrderedStores` | libopen-mx/omx_recv.c:692-734 | A packet that is not early keeps every buffer right: what has come of each message is in its place, as far as the buffer goes. |
| `Delivery.DrainStores` | libopen-mx/omx_recv.c:796-815 | So do the early packets it makes due. |
| `Delivery.BoundBox` | libopen-mx/omx_recv.c:1095-1192 | A receive that takes an unexpected message over holds what had come of it. |
| `Delivery.BytesArrive` | libopen-mx/omx_recv.c:692-837 | For every run with loss, duplication, reordering, resends and any choice of receives: each completed message is the one sent under its number, its receive holds the first min(buffer, message) bytes of it, and every acked message is completed, once. |
| `Connection.CatchUp` | libopen-mx/omx_send.c:108-134 | The numbers an endpoint gives out are sends of such a run, in order and inside the window. |
| `Connection.CutFills` | libopen-mx/omx_send.c:471-540 | The copies of a first post make the bytes of the send queue those of the fragments recorded for its slots. |
| `Connection.PostCarries` | libopen-mx/omx_send.c:461-476 | A post, the first or a later one, sends fragment k of its own message from slot k. |
| `Connection.CopiedAlike` | libopen-mx/omx_recv.c:349-362 | The copy of a medium receive is the one of the run. |
| `Connection.Link.constructor` | libopen-mx/omx_endpoint.c:570-576 | Endpoint and partner start where the empty run is. |
| `Connection.Link.SubmitIsend` | libopen-mx/omx_send.c:658-710 | What a submitted send does at the endpoint is the run going on, the receiver untouched. |
| `Connection.Link.ProcessDelayed` | libopen-mx/omx_send.c:1211-1282 | So is the service of delayed requests. |
| `Connection.Link.HandleLiback` | libopen-mx/omx_ack.c:137-168 | So is an ack of the receiver, late, twice or out of order. |
| `Connection.Link.Deliver` | libopen-mx/omx_recv.c:737-836 | So is a packet the network delivers, on the 16-bit fields of the partner. |
| `Connection.Link.NeededAck` | libopen-mx/omx_lib.h:196-214 | So is the ack that goes back. |
| `Connection.Link.Arrived` | libopen-mx/omx_recv.c:692-837 | Whatever happened: each message complete at the receiver is the one of the request that got its number, once, its receive holds the first bytes of that request, and every acked request is complete. |
| `Matching.TakesOwnCtxid` | libopen-mx/omx_recv.c:1270-1276 | A receive that passes the mask check only takes messages of its own context id. |
| `Matching.FirstRecvIsEarliest` | libopen-mx/omx_recv.c:479-488 | The receive found takes the message and nothing posted before it does; none is found only if none takes it. |
| `Matching.FirstMsgIsEarliest` | libopen-mx/omx_recv.c:1204-1221 | The same for the waiting message a receive takes. |
| `Matching.CtxidQueueFindsRecv` | libopen-mx/omx_recv.c:475-489 | Searching the queue of the message's context id finds what searching all posted receives would. |
| `Matching.CtxidQueueFindsMsg` | libopen-mx/omx_recv.c:1204-1211 | Searching the unexpected messages of the receive's context id finds what searching all of them would. |
| `Matching.DelOfCtxid` | libopen-mx/omx_recv.c:1104-1106 | Removing an entry from all messages and from those of its context id keep the two in step. |
| `Matching.AlwaysSettled` | libopen-mx/omx_recv.c:1196-1238 | In every reachable state no posted receive takes any waiting message, and every pair made is of a receive that takes its message. |
| `Matching.NothingLostNorDoubled` | libopen-mx/omx_recv.c:475-628 | Each receive is posted or in one pair, and each message that came is waiting, in one pair, taken care of by the unexpected handler, or was refused for lack of memory. |
| `Matching.MatchQueues.constructor` | libopen-mx/omx_endpoint.c:570-576 | All queues start empty. |
| `Matching.MatchQueues.Match` | libopen-mx/omx_recv.c:475-489 | On the queues by context id, a message goes to the first receive that takes it, waits, or is refused without memory, as in the single-queue reference. |
| `Matching.MatchQueues.Arrive` | libopen-mx/omx_recv.c:492-628 | A message no receive takes is shown to the unexpected handler, which may post receives and say that it is done; unless it is, the message is matched again; all as in the reference. |
| `Matching.MatchQueues.Post` | libopen-mx/omx_recv.c:1196-1295 | A posted receive has the effect of the reference, or is refused without effect exactly when its mask is bad. |
| `SenderModel.QuietKeeps` | libopen-mx/omx_types.h:367-425 | A request that changes its state bits and moves to the queue the table names for them keeps every queue, credit and order invariant. |
| `SenderModel.WaitKeeps` | libopen-mx/omx_lib.h:217-222 | Joining the throttled requests, the window being full, keeps the invariants. |
| `SenderModel.TakeWaitingKeeps` | libopen-mx/omx_send.c:1291-1296 | Taking the first throttled request keeps them. |
| `SenderModel.GiveKeeps` | libopen-mx/omx_send.c:108-134 | Giving a request the next number keeps them: numbers follow the order of API calls and the queue to be acked stays sorted. |
| `SenderModel.AckKeeps` | libopen-mx/omx_ack.c:28-83 | Acking the oldest request keeps them and frees one number. |
| `SenderModel.SettleKeeps` | libopen-mx/omx_lib.h:225-231 | After throttled requests were sent, the count is their number again and the partner is listed iff it is not zero. |
| `SenderModel.AddKeeps` | libopen-mx/omx_send.c:172-190 | A new request keeps them. |
| `SenderModel.RequeueKeeps` | libopen-mx/omx_send.c:1274-1281 | A request put back at the head, or delayed at the tail, keeps the API order. |
| `SenderModel.PullPostedKeeps` | libopen-mx/omx_large.c:534-541 | A posted pull keeps its credit until it is done. |
| `SenderModel.PullDoneKeeps` | libopen-mx/omx_large.c:573-648 | A finished pull gives its credit back. |
| `SenderModel.FragDoneKeeps` | libopen-mx/omx_lib.c:92-112 | A finished fragment gives one credit back, and the last one moves the request to the queue of its other bits. |
| `SenderModel.ReplyKeeps` | libopen-mx/omx_large.c:679-732 | The notify of a large send gives its place back; the request completes iff it is acked. |
| `SenderModel.RepostKeeps` | libopen-mx/omx_send.c:1446-1505 | A request posted again keeps them. |
| `SenderModel.ApiOrder` | libopen-mx/omx_send.c:1211-1325 | If a user send has a number, every earlier user send to the same partner has a smaller one. |
| `SenderModel.PostReturnsIff` | libopen-mx/omx_send.c:475-487 | When the driver refuses a fragment of a first post, the loop that copies the rest returns if and only if it refused the last one: the loop tests one index and increments another. |
| `SenderModel.RefusedPostLoopsForever` | libopen-mx/omx_send.c:475-487 | Three fragments of which the second is refused: the test of the loop never fails. |
| `SlotsModel.EventFindsOwner` | libopen-mx/omx_lib.c:92-98 | Every fragment-done event to come finds, through its slot, the mediumsq request that waits for it. |
| `SlotsModel.NothingOwed` | libopen-mx/omx_ack.c:45-54 | Slots are given back only when no event is to come for them. |
| `SlotsModel.FilledPosted` | libopen-mx/omx_send.c:471-474 | A first post fills its own slots and leaves every message still waited for, or being sent, in its own. |
| `SendqMapModule.SendqMap.constructor` | libopen-mx/omx_endpoint.c:89-111 | All 1024 slots start free. |
| `SendqMapModule.SendqMap.Get` | libopen-mx/omx_lib.h:271-307 | All the slots asked for are taken, distinct and unowned before, or none when too few are free. |
| `SendqMapModule.SendqMap.Put` | libopen-mx/omx_lib.h:310-335 | The slots given back, and only those, are free again. |
| `SendqMapModule.SendqMap.UserOf` | libopen-mx/omx_lib.h:338-348 | A used slot names its owner. |
| `SendqMapModule.GetThenPut` | libopen-mx/omx_lib.h:271-335 | Taking slots and giving them back restores the owners and the chain of free slots, but for the order of those taken. |
| `EndpointModule.Endpoint.SetUp` | libopen-mx/omx_send.c:568-596 | The request in hand gets the next number and, for every first post that returns, goes where the answer of the driver says; fragment k of a mediumsq is copied to its slot k, and no other slot is written; order, queues, credits and slots stay consistent. |
| `EndpointModule.Endpoint.SetUpOrWait` | libopen-mx/omx_send.c:642-654 | With room in the window the request gets its number at once, otherwise it joins the throttled ones. |
| `EndpointModule.Endpoint.ReserveMediumSq` | libopen-mx/omx_send.c:606-625 | Succeeds exactly if credits, where they are lacking, and then slots suffice for every fragment; what was reserved before is kept. |
| `EndpointModule.Endpoint.ReserveLarge` | libopen-mx/omx_send.c:782-804 | One of the large sends that may be under way, then a region. |
| `EndpointModule.Endpoint.AllocSetUp` | libopen-mx/omx_send.c:599-655 | A request gets all it lacks and its number or its place among the throttled, or keeps what it has and stays in hand. |
| `EndpointModule.Endpoint.Delay` | libopen-mx/omx_send.c:1274-1281 | The request in hand becomes the last, or again the first, of those that wait for resources. |
| `EndpointModule.Endpoint.SubmitIsend` | libopen-mx/omx_send.c:658-710 | A submitted send is recorded in API order; it never overtakes those that wait for resources. |
| `EndpointModule.Endpoint.SubmitPull` | libopen-mx/omx_large.c:544-571 | A pull is posted exactly if a credit is left and a region can be had, and is otherwise delayed as the last; an empty one leaves its notify for later, first in line. |
| `EndpointModule.Endpoint.PullDone` | libopen-mx/omx_large.c:573-648 | The finished pull, and no other, leaves its queue, its credit returns, and the notify is set up or delayed. |
| `EndpointModule.Endpoint.ProcessDelayed` | libopen-mx/omx_send.c:1211-1282 | The delayed requests are served from the first on, in order, until one still lacks something; that one is first again. |
| `EndpointModule.Endpoint.ProcessThrottling` | libopen-mx/omx_send.c:1285-1325 | As many throttled requests as numbers came free get theirs, in order. |
| `EndpointModule.Endpoint.MarkOldestAcked` | libopen-mx/omx_ack.c:28-83 | The oldest request is acked: complete, or waiting for the driver or for the reply only; its slots return iff it is complete. |
| `EndpointModule.Endpoint.MarkAcked` | libopen-mx/omx_ack.c:111-128 | The loop over masked indexes acks exactly the requests numbered below the ack. |
| `EndpointModule.Endpoint.HandleAck` | libopen-mx/omx_ack.c:89-135 | The first number not acked becomes the larger of the old one and the one received; exactly the requests below it are acked, and as many waiting ones as numbers came free are sent; a stale ack changes nothing. |
| `EndpointModule.Endpoint.HandleLiback` | libopen-mx/omx_ack.c:137-168 | Acks of another session, and acks overtaken by a later one, are ignored. |
| `EndpointModule.Endpoint.FragDone` | libopen-mx/omx_lib.c:92-112 | The request that owns the slot counts one event less; it completes with the last one iff it is acked, and its slots return then. |
| `EndpointModule.Endpoint.LargeReplied` | libopen-mx/omx_large.c:679-732 | A large send whose notify came completes iff it is acked. |
| `EndpointModule.Endpoint.Repost` | libopen-mx/omx_send.c:1446-1505 | A request is posted once more and goes behind the others or to the driver's queue; a mediumsq is posted from slots that still hold its own fragments; nothing changes when credits are short. |
| `EndpointModule.Endpoint.ProcessResend` | libopen-mx/omx_send.c:1417-1506 | Up to the first timeout, requests are posted again once each, the oldest first; none is lost or doubled. |
| `Resend.ResendPass` | libopen-mx/omx_send.c:1417-1506 | With partners reset on timeout and the walk restarted, the pass ends; those that waited long enough are posted once, the oldest first, until credits are short; those the driver took a fragment of are in its queue, the others behind the rest, each as its post left it; the credits gone are those of the fragments taken. |
| `Resend.PostedAlike` | libopen-mx/omx_send.c:533-565 | A post counts and stamps its request unless it is a mediumsq whose first fragment the driver refused, which stays as it was; Endpoint does the same to the same fields. |
| `Resend.EachInOneQueue` | libopen-mx/omx_send.c:1417-1506 | Each request posted is in exactly one of the two queues. |
| `Resend.StopIsSafeIff` | libopen-mx/omx_send.c:1427-1430 | Stopping at the first request that is not due passes over no due one, from now on, if and only if every request with an older one behind it is due already. |
| `Resend.PassKeepsAgeIff` | libopen-mx/omx_send.c:1426-1506 | A pass keeps that order if and only if, when the driver refused a mediumsq entirely that stays, nothing stamped now was put behind the others before it and all requests left are due. |
| `Resend.JoinKeepsAgeIff` | libopen-mx/omx_lib.c:101-109 | A request that joins the queue keeps it if and only if no younger one that is not due is in the queue. |
| `Resend.RefusedGoesBehind` | libopen-mx/omx_send.c:545-565 | A pass may put a refused mediumsq, sent at 0, behind a request sent at 50. |
| `Resend.RefusedIsPassedOver` | libopen-mx/omx_send.c:1427-1430 | Every next pass then posts nothing, though the mediumsq is due. |
| `Resend.DriverDoneIsBehind` | libopen-mx/omx_lib.c:101-109 | A mediumsq sent at 0 that the driver is done with at 55 joins behind a request sent at 50, and stopping is not safe then. |
| `Resend.TimesOutIff` | libopen-mx/omx_send.c:533-565 | A request times out by the number of its posts that were not refused entirely, and never while the driver refuses them all. |
| `EventRingModule.StaleIsDifferent` | common/omx_io.h:91-94 | A slot never keeps, from one lap to the next, the id that would make its old event look new, even where the 32-bit index wraps. |
| `EventRingModule.FindsNext` | libopen-mx/omx_lib.c:250-256 | The reader finds the id it expects if and only if there is an unread event, and then it is the oldest. |
| `EventRingModule.EventRing.Notify` | driver/linux/omx_event.c:180-213 | The driver refuses an event exactly when the whole ring is unreleased, and otherwise appends it. |
| `EventRingModule.EventRing.RoomLeft` | driver/linux/omx_event.c:180-213 | The slots read but not released are fewer than a batch, so that the ring takes another event while at most 768 are unread. |
| `EventRingModule.EventRing.ReleaseSlots` | driver/linux/omx_event.c:573-584 | A batch is released iff as many slots were written. |
| `EventRingModule.EventRing.Next` | libopen-mx/omx_lib.c:250-256 | The reader sees the oldest unread event, and none only if there is none. |
| `EventRingModule.EventRing.Consume` | libopen-mx/omx_lib.c:256-274 | The event read leaves; after each batch its slots are released, which never fails. |
| `ExpectedEvents.CreditsSuffice` | libopen-mx/omx_lib.c:92-121 | Distinct events that the endpoint still awaits are never more than the credits its requests hold, in every state of the endpoint. |
| `ExpectedEvents.OpenEndpoint.Report` | libopen-mx/omx_lib.c:159-168 | Whatever awaited event the driver reports next, the ring has a slot for it: the queue-full report, on which the library aborts, never happens. |
| `ExpectedEvents.OpenEndpoint.Handle` | libopen-mx/omx_lib.c:92-121 | The handler finds the request of the event, which gives its credit back. |
| `ExpectedEvents.OpenEndpoint.Progress` | libopen-mx/omx_lib.c:248-274 | All unread events are handled, in the order of the reports. |
| `AckSched.AckScheduler.MarkDelayed` | libopen-mx/omx_lib.h:165-175 | A partner owed an ack is on the delayed list, in the order of age. |
| `AckSched.AckScheduler.MarkImmediate` | libopen-mx/omx_lib.h:178-193 | A partner is moved to, or put on, the immediate list and is on one list only. |
| `AckSched.AckScheduler.Advance` | libopen-mx/omx_recv.c:646-663 | What is received and not acked puts the partner on a list, on the immediate one if the gap is too large. |
| `AckSched.AckScheduler.AckSent` | libopen-mx/omx_lib.h:203-214 | Sending any packet with the ack takes the partner off its list. |
| `AckSched.AckScheduler.RestIsRecent` | libopen-mx/omx_ack.c:287-294 | The delayed list being sorted, stopping at the first recent partner leaves no overdue one. |
| `AckSched.AckScheduler.ServeDelayed` | libopen-mx/omx_ack.c:287-309 | When sends succeed no partner is overdue afterwards. |
| `AckSched.AckScheduler.ProcessPartnersToAck` | libopen-mx/omx_ack.c:257-312 | When its sends succeed the immediate list is empty, and no partner is overdue if and only if it is the first call at this time or none was overdue before; no obligation is dropped without an ack. |
| `AckSched.AckScheduler.NextWakeup` | libopen-mx/omx_ack.c:351-363 | The wake-up is due when some partner is delayed, at the time the first of them becomes overdue. |
| `RegCacheModule.SlotsShared` | libopen-mx/omx_types.h:62-77 | Free slots, cached regions and vectorial ones are together the 256 slots. |
| `RegCacheModule.OneReserver` | libopen-mx/omx_types.h:70-75 | A region has at most one reserver; the unused list is exactly the cached regions nobody holds. |
| `RegCacheModule.IntersectMeansShared` | libopen-mx/omx_large.c:409-416 | Two ranges intersect iff they share an address. |
| `RegCacheModule.RegCache.constructor` | libopen-mx/omx_large.c:35-64 | All 256 slots start in the free chain. |
| `RegCacheModule.RegCache.TryAlloc` | libopen-mx/omx_large.c:68-94 | The first slot of the chain is taken; it fails only when there is none. |
| `RegCacheModule.RegCache.Free` | libopen-mx/omx_large.c:97-111 | The slot becomes the first of the chain. |
| `RegCacheModule.RegCache.DestroyRegion` | libopen-mx/omx_large.c:198-207 | A region nobody holds leaves its list, the driver and its slot. |
| `RegCacheModule.RegCache.Alloc` | libopen-mx/omx_large.c:210-234 | With no free slot the region unused for longest is evicted, never a held one; it fails only if every slot is held. |
| `RegCacheModule.RegCache.Create` | libopen-mx/omx_large.c:237-272 | A new region, or no change for any holder when slots or the driver refuse. |
| `RegCacheModule.RegCache.FirstReusable` | libopen-mx/omx_large.c:289-302 | A cached region is found exactly when one may be reused. |
| `RegCacheModule.RegCache.Get` | libopen-mx/omx_large.c:275-376 | A region that covers the request gets one more holder, reserved for no one else if asked so; a reusable one is used without the driver; it fails only if every slot is held or the driver refuses. |
| `RegCacheModule.RegCache.Put` | libopen-mx/omx_large.c:380-402 | One holder less; the region stays registered iff the cache keeps its kind, and is then listed as unused iff nobody holds it. |
| `RegCacheModule.RegCache.Clean` | libopen-mx/omx_large.c:423-451 | Every cached region that touches the freed range goes; it aborts iff one of them is held. |
| `Bits.NegateAt` | libopen-mx/dlmalloc.c:2841 | The two's complement of a word keeps its bits up to the lowest set one and inverts the others. |
| `Bits.LeastBitIsLowest` | libopen-mx/dlmalloc.c:2841 | x & -x has exactly the lowest bit of x. |
| `Bits.FirstMarked` | libopen-mx/dlmalloc.c:2841-2883 | Scanning it gives the first marked bin. |
| `Bits.LeftBitsAt` | libopen-mx/dlmalloc.c:2844 | The mask to the left of a bit has all the higher bits. |
| `Bits.NextMarked` | libopen-mx/dlmalloc.c:5118-5140 | The search of a bin map beyond an empty bin finds the next marked one, and none only if there is none. |
| `TreeIndex.ComputeTreeIndex` | libopen-mx/dlmalloc.c:2792-2808 | A large size falls in the bin whose bounds enclose it, over all 64-bit sizes. |
| `TreeIndex.BinaryLog` | libopen-mx/dlmalloc.c:2799-2804 | The shifts and masks compute the binary logarithm. |
| `TreeIndex.OneBin` | libopen-mx/dlmalloc.c:2821-2823 | The bin of a size is unique. |
| `Digits.StartReading` | libopen-mx/dlmalloc.c:2816-2818 | The shifted size holds the digits that vary inside its bin, left-adjusted. |
| `Digits.ReadDigit` | libopen-mx/dlmalloc.c:3562-3566 | The sign bit is the digit that tells the two halves apart, and shifting moves to the next. |
| `Trie.InsertOk` | libopen-mx/dlmalloc.c:3543-3592 | Insertion keeps the digits rule at every depth and the uniqueness of sizes. |
| `Trie.InsertAdds` | libopen-mx/dlmalloc.c:3543-3592 | It adds exactly one chunk. |
| `Trie.InsertSeparate` | libopen-mx/dlmalloc.c:3543-3592 | No chunk is in the tree twice. |
| `Trie.RemoveOk` | libopen-mx/dlmalloc.c:3611-3680 | Removal keeps the digits rule and the uniqueness of sizes. |
| `Trie.RemoveSeparate` | libopen-mx/dlmalloc.c:3611-3680 | It takes exactly that address out. |
| `Trie.RemoveTakes` | libopen-mx/dlmalloc.c:3611-3680 | It takes exactly one chunk out. |
| `TrieMemory.InsertStored` | libopen-mx/dlmalloc.c:3559-3590 | The pointer writes at the end of the walk turn the tree in memory into the one with the new chunk. |
| `TrieUnlink.RingUnlinkOk` | libopen-mx/dlmalloc.c:3614-3624 | Unlinking from a ring of several leaves a ring; behind the head a chunk becomes the head. |
| `TrieUnlink.CutStored` | libopen-mx/dlmalloc.c:3625-3640 | Walking to the last leaf and cutting it leaves the tree without it. |
| `TrieUnlink.TakeOver` | libopen-mx/dlmalloc.c:3654-3676 | The replacing chunk takes over parent and children. |
| `TrieUnlink.RemoveStored` | libopen-mx/dlmalloc.c:3641-3653 | Relinking from the parent leaves the tree without the chunk. |
| `TreeBinsModule.TreeBins.FindStop` | libopen-mx/dlmalloc.c:3557-3575 | The walk ends where the digits of the size lead, by the number of digits left. |
| `TreeBinsModule.TreeBins.InsertLargeChunk` | libopen-mx/dlmalloc.c:3543-3592 | The bins hold one chunk more, and bitmap, trees, rings and parents stay consistent. |
| `TreeBinsModule.TreeBins.UnlinkLargeChunk` | libopen-mx/dlmalloc.c:3611-3680 | The bins hold one chunk less, wherever it was. |
| `TreeBinsModule.TreeBins.PathSearch` | libopen-mx/dlmalloc.c:4249-4271 | The path toward the digits of the request, with the deepest right subtree not taken, misses no better chunk. |
| `TreeBinsModule.TreeBins.Descend` | libopen-mx/dlmalloc.c:4282-4289 | The leftmost descent ends with the best chunk of the bin. |
| `TreeBinsModule.TreeBins.FindBestFit` | libopen-mx/dlmalloc.c:4243-4289 | The chunk chosen is the smallest of all tree chunks that fit; none is chosen only if none fits. |
| `TreeBinsModule.TreeBins.FindSmallest` | libopen-mx/dlmalloc.c:4314-4329 | For small requests, the smallest tree chunk of all. |
| `BestFit.RemainderBeats` | libopen-mx/dlmalloc.c:4258-4263 | The unsigned difference beats the best so far only for a chunk that fits. |
| `BestFit.StepLeft` | libopen-mx/dlmalloc.c:4264-4268 | A step to the left may forget the former reserve. |
| `HeapModule.ChunksTile` | libopen-mx/dlmalloc.c:3324-3353 | Every address of the segment is in exactly one chunk. |
| `HeapModule.ChunksShareNothing` | libopen-mx/dlmalloc.c:3188-3200 | Chunks, live or free, share no address. |
| `HeapModule.FootIsSize` | libopen-mx/dlmalloc.c:3154-3186 | The next chunk's bit says whether this one is in use, and a free chunk's foot is its size. |
| `HeapModule.FreeChunksApart` | libopen-mx/dlmalloc.c:3165-3180 | No two free chunks touch. |
| `HeapModule.PayloadIsFree` | libopen-mx/dlmalloc.c:2112-2117 | The owner of a chunk may write its payload, the word shared with the next chunk included, without harm to the heap. |
| `SmallBinsModule.LinkedCircle` | libopen-mx/dlmalloc.c:3470-3486 | The four writes link a chunk behind the head of its bin; the links of the head of an empty bin, left by the last chunk, are not looked at. |
| `SmallBinsModule.UnlinkedCircle` | libopen-mx/dlmalloc.c:3489-3506 | The two writes take a chunk out of the circle. |
| `SmallBinsModule.SmallBins.InsertSmallChunk` | libopen-mx/dlmalloc.c:3470-3486 | The bins hold one chunk more, circles and bitmap included. |
| `SmallBinsModule.SmallBins.UnlinkFirstSmallChunk` | libopen-mx/dlmalloc.c:3509-3525 | The first chunk of the circle leaves; the bin is unmarked iff it was the only one. |
| `SmallBinsModule.SmallBins.UnlinkSmallChunk` | libopen-mx/dlmalloc.c:3489-3506 | The same for a chunk anywhere in its circle, found by its links alone. |
| `MspaceModule.RequestSizes` | libopen-mx/dlmalloc.c:2152-2161 | Padding gives an aligned size with room for the head; too large a request asks for a size nothing has. |
| `MspaceModule.Mspace.constructor` | libopen-mx/dlmalloc.c:5006-5031 | A segment that is all top: one free chunk, nothing live. |
| `MspaceModule.Mspace.TmallocLarge` | libopen-mx/dlmalloc.c:4243-4310 | A large request is served from the best fitting tree chunk, or left to the victim when that fits as well. |
| `MspaceModule.Mspace.TmallocSmall` | libopen-mx/dlmalloc.c:4314-4350 | A small request is served from the smallest tree chunk, the rest becoming the victim. |
| `MspaceModule.Mspace.SmallRequest` | libopen-mx/dlmalloc.c:5113-5165 | The small bins in order, then the trees, unless the victim will do. |
| `MspaceModule.Mspace.ServeVictim` | libopen-mx/dlmalloc.c:5176-5194 | The victim is cut or used up. |
| `MspaceModule.Mspace.ServeTop` | libopen-mx/dlmalloc.c:5196-5206 | Top is cut, and something remains. |
| `MspaceModule.Mspace.Malloc` | libopen-mx/dlmalloc.c:5104-5216 | The heap stays whole; the chunk returned is new, aligned, of the size asked up to less than a minimal chunk more, taken from the preferred free chunk, whose rest stays free; null if and only if nothing free fits, and then nothing changes. |
| `MspaceModule.FirstTreeSizePassedOver` | libopen-mx/dlmalloc.c:5113-5165 | With a free chunk 8 bytes larger than the request and the victim to choose from, a request of 240 takes the chunk of 248, one of 248 takes the victim and not the chunk of 256. |
| `MspaceModule.Mspace.MergeBackward` | libopen-mx/dlmalloc.c:5234-5261 | The chunk to free absorbs the free one before it. |
| `MspaceModule.Mspace.MergeIntoTop` | libopen-mx/dlmalloc.c:5265-5276 | Next to top it becomes part of top. |
| `MspaceModule.Mspace.MergeWithVictim` | libopen-mx/dlmalloc.c:5277-5282 | Next to the victim the two become the victim. |
| `MspaceModule.Mspace.Free` | libopen-mx/dlmalloc.c:5218-5317 | The chunk is live no more; it is one free chunk with its free neighbours; all other chunks stay; each free chunk is exactly one of top, victim or listed in the bin of its size. |
| `OneMemory.WordsApart` | libopen-mx/dlmalloc.c:2112-2117 | The words the allocator relies on, head, foot and links of all chunks at their addresses in one memory, are different words for different fields. |
| `OneMemory.PayloadApart` | libopen-mx/dlmalloc.c:2112-2117 | None of them reaches into the payload of a live chunk, the word shared with the next chunk included. |
| `OneMemory.StepInOneMemory` | libopen-mx/dlmalloc.c:2318-2330 | Any step between two whole heaps is done in one memory by writing the fields that changed, in any order, and changes no payload of a live chunk. |
| `OneMemory.MemoryExists` | libopen-mx/dlmalloc.c:2318-2330 | Every whole heap has such a memory. |
| `OneMemory.WholeFields` | libopen-mx/dlmalloc.c:3265-3310 | A valid mspace is such a heap. |
| `OneMemory.LooseFields` | libopen-mx/dlmalloc.c:3611-3680 | So is one in the middle of a call, with one free chunk out of the bins. |
| `Memalign.PowerTest` | libopen-mx/dlmalloc.c:4433 | x & (x - 1) is zero exactly for powers of two. |
| `Memalign.MaskDown` | libopen-mx/dlmalloc.c:4463-4466 | Masking with the negated alignment rounds down to a multiple. |
| `Memalign.RoundingEndsIff` | libopen-mx/dlmalloc.c:4431-4437 | The loop that doubles 16 in a 64-bit word reaches the alignment if and only if that is at most 2^63. |
| `Memalign.RoundingLoopsForever` | libopen-mx/dlmalloc.c:4431-4437 | For 2^63 + 1 the test of the loop holds after every number of turns. |
| `Memalign.RoundAlignment` | libopen-mx/dlmalloc.c:4431-4437 | Where the loop ends it finds the alignment itself or the next power of two. |
| `Memalign.AlignedSpot` | libopen-mx/dlmalloc.c:4445-4471 | The padded request always has an aligned spot with a leader large enough to be a chunk and enough behind it. |
| `Memalign.Memalign` | libopen-mx/dlmalloc.c:4428-4511 | For every alignment the rounding ends for: null if and only if nothing free fits the padded request or the sum of sizes is too large; otherwise the result is aligned to the smallest power that will do, its chunk has the size asked up to at most a minimal chunk more, and leader and trailer are free again: one live chunk is added. |

## Left out

Narrower contracts, by member:

- SetUp: the first post of a mediumsq message fails at no fragment but the last, because otherwise it does not return (SenderModel.PostReturnsIff).
- PullSetUp: the driver accepts the pull, because after a failed one the source goes on with a region it never set (libopen-mx/omx_large.c:489-517).
- PullDone: the region of the pull is given back in RegCache only, where regions are modelled.
- ProcessResend: stops at the first timeout and returns the partner; the restart after resetting it is in Resend.ResendPass, on the queues and credits alone.
- ProcessFrag: where a copy leaves the segments the contract says so and nothing of what the source does then.
- DrainEarly: does not bring out every packet that has come due, as the source computes the limit once; RecvSpec.DueStaysIff says which stay.
- Memalign: the alignment is one for which the rounding loop ends, which is those up to 2^63 (Memalign.RoundingEndsIff).
- ComputeTreeIndex: the portable variant; the gcc and Windows ones, which use an instruction on 32 bits, are not modelled.
- NewRequest: the time of the last send of a request never posted starts at 0, where the source leaves it unset; it matters for a mediumsq of one fragment whose first post the driver refused.
- Deliver: the buffers of Delivery are flat, and no copy into a vectored one leaves its segments; Medium.PostedStaysInside says when that is so.
- ReleaseSlots: the driver's lock and the concurrent increments of the ring index are one step each.

Not modelled:

- Connecting, sessions changing, nacks, and the cleanup of a partner, but for the removal of its requests in Resend.
- Requests completed for the application before they are acked, and those it has forgotten.
- Messages an endpoint sends to itself, and canceled requests.
- Completing a large receive or send with an error, and the region sequence number that filters duplicate notifies.
- The send queues of tiny, small and vectored mediums beyond their place in the queues: their packets are built by the driver.
- The vector-to-vector copy (libopen-mx/omx_segments.h:150-171), which ignores the current offsets.
- The forced flush of acks at closing, and wake-ups for resends.
- The unexpected event ring, which has no credits: the driver drops packets when it is full.
- Deregistration at the closing of an endpoint.
- In the allocator: growing and trimming the segment, several segments, direct mmap, footers, locks, calloc and realloc, the checks against corrupted memory, and the header chunk at the start and the unused foot at the end of a segment.
- The fields of chunks are separate maps in the methods; OneMemory relates whole states, and states with one chunk out of the bins, to one memory, not each single write inside a method.
- Raw endpoints, the peer table, board information, environment variables, debugging output, MX compatibility.
