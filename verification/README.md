# vMux device models and simulator channels, verified

vMux multiplexes network cards for virtual machines. Its hard code lies in the device
models (descriptor queues, segmentation, checksums, receive-side scaling) and in the
channels between simulators (shared-memory rings, clock synchronisation, connection
set-up). This project models that code in Dafny and proves what it is for: over every
input, every interleaving and every reachable state.

`dafny verify dfyconfig.toml` checks everything. There is one module for each component:

| file | component |
|---|---|
| `ClockSync.dfy` | conservative clock synchronisation between any number of simulators |
| `TimedEvents.dfy` | the timed events of one simulator |
| `ClockHandlers.dfy` | what the handlers of a run ask for, and what becomes of it |
| `ClockFreeze.dfy` | when the clocks stop for ever |
| `OwnershipRing.dfy` | the single-producer, single-consumer message ring with one ownership bit per slot |
| `DescPipeline.dfy`, `DescQueue.dfy` | the i40e descriptor queue: the pipeline over descriptor numbers, and the class with its context array that implements it |
| `Checksum.dfy`, `TcpHeaders.dfy` | Internet checksums and the header fix-ups of a segment |
| `Segmentation.dfy`, `TsoOffload.dfy`, `TxQueue.dfy` | TCP segmentation: what must reach the wire, the hardware path through DPDK, and the E810 transmit queue |
| `DmaRemap.dfy` | the DMA remapping handshake of the vDPDK polling threads |
| `DescCache.dfy` | the e1000 descriptor cache |
| `CompletionRing.dfy` | Corundum's out-of-order completion pointer |
| `DmaWindow.dfy` | the 64-deep window of DMA operations of the behavioural-model runner |
| `Toeplitz.dfy` | the cached Toeplitz hash |
| `Handshake.dfy` | the connection handshake of base interfaces |
| `Modular.dfy`, `Wrappers.dfy` | remainders, for ring positions; small helpers |

## How to read it

Objects that the source updates in place are classes (`OwnershipRing.Ring`,
`DescQueue.QueueBase`, `TsoOffload.Driver`, `TxQueue.Queue`, `DescCache.Cache`,
`CompletionRing.DescRing`, `DmaWindow.Runner`, `Toeplitz.KeyCache`), with the source's
loops and buffers. Each method is proved against a specification on values; the results
about whole runs are lemmas about those specifications. Code that runs concurrently (the
simulators of a network, the two ends of a ring, the vfio-user threads and the pollers,
the two ends of a handshake) is a transition system whose steps are the source's
statements; the theorems are about all its runs.

Ring positions and sequence numbers wrap in the source. The proofs follow them with
counters that never wrap; `Modular.Wrap` is the remainder by repeated subtraction and
`Modular.WrapIsMod` says that it is `%`. Several specifications say `x in S(..)` where
`S` is the set of the states that satisfy a predicate defined next to it; it means the
predicate.

## What turned out not to hold in general

These are properties one would expect of the code, with the exact condition under which
it has them.

- **Idle simulators that stop.** Two linked simulators keep running, except when both need
  room in a full queue, if and only if 0 < sync interval <= link latency
  (`ClockFreeze.KeepsRunningIff`): interval 0, latency 0, and every interval above the
  latency each freeze both clocks for ever.
- **Full queues.** A simulator that waits for room, for a SYNC or in a handler, polls nothing
  meanwhile. Under the condition above the pair is frozen in exactly the reachable states in
  which both need more room than there is (`ClockFreeze.FrozenIffJammed`); handlers that send
  too much lead there (`ClockFreeze.HandlersCanJam`), and so do SYNCs behind full queues
  (`ClockFreeze.SyncsCanJam`). In any network, simulators that need room in each other's
  queues never move again (`ClockFreeze.JamIsForEver`).
- **Ring lengths.** `trigger_fetch` computes the number of available descriptors in
  32-bit arithmetic, which is right for all positions exactly when the ring length divides
  2^32 (`DescQueue.AvailExactIff`).
- **IP options.** `xsum_tcpip_tso` takes a fixed 20 bytes for the IP header when it makes
  the pseudo-header, so the TCP checksum is valid exactly when there are no IP options
  (`TcpHeaders.TcpVerifiesIffNoOptions`).
- **Units that never end.** The loop of `trigger_tx` ends, whatever the hardware takes, if and
  only if every unit it sends ends in a buffer that is not empty and every segmented unit
  longer than its headers has a segment size above 0 (`TxQueue.StopsIff`). With an empty last
  buffer a unit without bytes stays at the front of the queue and is sent again and again
  (`TxQueue.SoftEndIff`, `TxQueue.EmptyUnitStays`); with segment size 0 the header is
  (`TxQueue.ZeroMssNeverEnds`).
- **Several ports.** `send_tso` offers a unit to one port after the other and reports failure
  if one refuses; the software fallback then sends on every port. Every port gets the unit
  exactly once if and only if the first port refuses or all accept
  (`TxQueue.OnceEverywhereIff`), and for all answers if and only if there is at most one
  port (`TxQueue.OnceForAllAnswersIff`). The same chain of mbufs goes to every port, so it
  is given up exactly once, for all answers, if and only if there is exactly one port
  (`TsoOffload.ReleasedOnceForAllAnswersIff`).
- **Shared pollers.** The threads that vDPDK starts can block a device's remapping for ever
  if and only if devices share pollers, that is, with at least two devices and more than the
  sharing threshold (`DmaRemap.StartCanBlockIff`). A shared pair can be blocked inside any
  larger system, whatever all other threads do (`DmaRemap.SharedPairCanBlock`).
- **Forgotten write-backs.** A full write-back of the e1000 cache that is requested while
  another one is prepared or in flight is carried out on its completion, whatever happens in
  between, if and only if that one was more restrictive or left something over
  (`DescCache.FullRequestHonouredIff`; `DescCache.RequestCanBeForgotten` is a run).
- **Large completion rings.** The bits that `updatePtr` tests follow the tags exactly when
  the ring has at most 2^16 entries (`CompletionRing.LoopFollowsTagsIff`); in every larger one
  the pointer can stop at a tag that is done (`CompletionRing.PointerStopsShort`).
- **Slots held for a lap.** The message ring is a FIFO as long as no reservation and no
  polled slot stays open for a lap; the code would clobber or duplicate a message exactly
  when one does (`OwnershipRing.AllocClobbersIff`, `OwnershipRing.PollDuplicatesIff`;
  `OwnershipRing.AllocCanClobber` and `OwnershipRing.PollCanDuplicate` are runs).

## Model

| member | source | states |
|---|---|---|
| ClockSync.ExactLatency | src/libsimbricks/simbricks/nicbm/nicbm.cc:591-622 | in every run of any number of simulators, messages on a link are delivered in sending order, once, exactly when the receiver's clock is the sender's clock at the send plus the link latency |
| ClockSync.BoundedSkew | src/libsimbricks/simbricks/base/if.h:200-247 | in every run no clock passes the incoming timestamp of any of its links, no receiver is more than one latency ahead of a sender, consecutive timestamps differ by at most the sync interval, and by exactly that if the second is a SYNC (unless the first was sent at time 0), and no sender is more than one interval past its last message |
| ClockHandlers.EventsOnTime | src/libsimbricks/simbricks/nicbm/nicbm.cc:489-510 | in every run each timed event fires exactly at its time, or at once if that had passed when it was scheduled; events pending together fire in the order of time, priority and scheduling; no clock passes a pending event; and every event scheduled is pending or has fired, once |
| ClockHandlers.ScheduledAsAsked | src/libsimbricks/simbricks/nicbm/nicbm.cc:269-271 | in every run the events scheduled are those the set-up and then the handlers ask for, read off the run, in that order |
| ClockHandlers.SentAsAsked | src/libsimbricks/simbricks/nicbm/nicbm.cc:88-127 | in every run the data messages sent on a link are those the handlers of its sender send, read off the run, in that order |
| TimedEvents.ScheduleKeeps | src/libsimbricks/simbricks/nicbm/nicbm.h:281-290 | scheduling keeps the events in order of time and priority, behind equal ones, and loses none |
| TimedEvents.FireKeeps | src/libsimbricks/simbricks/nicbm/nicbm.cc:497-510 | firing the first event, once it is due, is on time and in order |
| TimedEvents.WaitKeeps | src/libsimbricks/simbricks/nicbm/nicbm.cc:615-619 | a clock that moves no further than the first event passes none |
| ClockSync.NextTimestamp | src/libsimbricks/simbricks/nicbm/nicbm.cc:607-618 | the new clock is no later than the largest step, any incoming stamp, any sync deadline and the first event, and is one of them |
| ClockSync.LeastCanAdvance | src/libsimbricks/simbricks/nicif/nicif.h:47-66 | with 0 < interval <= latency on every link, from every reachable state in which every simulator at the least clock has room for what it is about to send, each simulator with the least clock can advance it, with no new work for handlers and without any other clock moving |
| ClockSync.LeastMustAdvance | src/libsimbricks/simbricks/nicbm/nicbm.cc:591-622 | it must: however main loops and handlers are interleaved, until one of the simulators at the least clock advances, or has to wait for room in a queue, they take no more effective steps in all than the work they started with and two for each operation of a handler that is started |
| ClockSync.StepUsesWork | src/libsimbricks/simbricks/nicbm/nicbm.cc:591-606 | every step of a simulator at the least clock that changes anything uses up work (due messages, unread stamps, due events, OutSync calls to make, operations left to a handler), except for the work of a handler it starts, and no other step adds any |
| ClockSync.SomeWorkToDo | src/libsimbricks/simbricks/nicbm/nicbm.cc:591-618 | as long as a simulator at the least clock cannot advance and none at it waits for room, one of them has such a step |
| ClockFreeze.KeepsRunningIff | src/libsimbricks/simbricks/base/if.h:343-370 | for two linked simulators with at least two queue entries: in every reachable state in which not both need room some clock can still move, if and only if 0 < interval <= latency |
| ClockFreeze.LongIntervalFreezes | src/libsimbricks/simbricks/base/if.h:343-370 | for every interval above a positive latency they reach a state that no step changes |
| ClockFreeze.ZeroFreezes | src/libsimbricks/simbricks/base/if.h:365-370 | for interval 0 or latency 0 they do so at time 0 |
| ClockFreeze.FrozenIffJammed | src/libsimbricks/simbricks/nicbm/nicbm.cc:88-127 | with 0 < interval <= latency, whatever steps are taken and whatever handlers do, no clock ever moves again in exactly the reachable states in which both simulators need room that is not there, for a SYNC that is due or for the messages of a handler |
| ClockFreeze.HandlersCanJam | src/libsimbricks/simbricks/nicbm/nicbm.cc:88-127 | such a state is reachable, for every queue length, from events at time 0 whose handlers send as much as a queue holds |
| ClockFreeze.SyncsCanJam | src/libsimbricks/simbricks/nicbm/nicbm.cc:592-595 | and one in which both wait to send a SYNC, behind queues their handlers have filled |
| ClockFreeze.FrozenNeedsJam | src/libsimbricks/simbricks/nicbm/nicbm.cc:591-622 | in any network with 0 < interval <= latency a standstill of all clocks takes a simulator at the least clock that needs room which is not there |
| ClockFreeze.JamIsForEver | src/libsimbricks/simbricks/nicbm/nicbm.cc:88-127 | in any network, simulators each of which needs room in a queue read by one of them never move again, whatever steps are taken |
| ClockSync.SyncStepKeeps | src/libsimbricks/simbricks/base/if.h:343-357 | sending a SYNC when one is due keeps the network's invariant: histories, stamps at most one interval apart, clocks behind stamps |
| ClockSync.AdvanceKeeps | src/libsimbricks/simbricks/nicbm/nicbm.cc:607-619 | advancing to that time keeps it: in particular no clock passes a stamp or an event |
| ClockSync.PollKeeps | src/libsimbricks/simbricks/base/if.h:200-247 | looking at a queue and consuming a message that is due keeps it |
| ClockSync.HandlerKeeps | src/libsimbricks/simbricks/nicbm/nicbm.cc:88-127 | an operation of a handler, a data message stamped with clock plus latency or a new event, keeps it |
| ClockSync.TriggerKeeps | src/libsimbricks/simbricks/nicbm/nicbm.cc:497-510 | an event that is due and starts a handler keeps it |
| ClockSync.SyncedIsAhead | src/libsimbricks/simbricks/base/if.h:343-370 | once every simulator at the least clock has run OutSync, the last stamp on every link to one of them lies beyond that clock |
| OwnershipRing.Ring.OutAlloc | src/libsimbricks/simbricks/base/if.h:295-325 | takes the slot at the producer's position exactly if its ownership bit allows it, stamps it with timestamp plus latency, leaves type, payload and all other slots alone, and moves the position |
| OwnershipRing.Ring.OutSend | src/libsimbricks/simbricks/base/if.h:327-333 | stores the type and hands the slot over, with its stamp and payload, and touches no other slot |
| OwnershipRing.Ring.InPoll | src/libsimbricks/simbricks/base/if.h:230-247 | returns the slot at the consumer's position exactly if it has been handed over |
| OwnershipRing.Ring.InDone | src/libsimbricks/simbricks/base/if.h:256-265 | gives the slot back as it is, and touches no other |
| OwnershipRing.RingRefinesFifo | src/libsimbricks/simbricks/base/if.h:230-333 | every step of the ring is a step of a FIFO in allocation order, whatever the order of sends and completions, while no slot stays open for a lap |
| OwnershipRing.DeliveredOnceUnmodified | src/libsimbricks/simbricks/nicbm/nicbm.cc:298-316 | over every interleaving each message is polled once, in allocation order, with the contents it was sent with, and no slot is open to the producer while the consumer holds it |
| OwnershipRing.PolledAsWritten | src/libsimbricks/simbricks/base/if.h:295-333 | over every interleaving, the message polled as the k-th carries the stamp of the k-th allocation, the type it was sent with and the payload last written into it, all read off the run; if none was written, what the slot held before |
| OwnershipRing.CanAllocIff | src/libsimbricks/simbricks/base/if.h:303-308 | a slot can be had exactly in the first lap, or when the message a lap earlier is done with or still reserved |
| OwnershipRing.CanPollIff | src/libsimbricks/simbricks/base/if.h:230-247 | there is something to poll exactly when the oldest unpolled message has been sent, or none is left and the one a lap earlier is still held |
| OwnershipRing.AllocClobbersIff | src/libsimbricks/simbricks/base/if.h:295-325 | when the code allows an allocation, it hands out a slot that an older message still reserves if and only if a reservation has stayed open for a lap |
| OwnershipRing.PollDuplicatesIff | src/libsimbricks/simbricks/base/if.h:230-247 | when the code allows a poll, it returns the oldest unpolled message if and only if the message polled a lap ago is no longer held; otherwise it returns that message again |
| OwnershipRing.AllocCanClobber | src/libsimbricks/simbricks/base/if.h:295-325 | a run after which the code hands out a reserved slot |
| OwnershipRing.PollCanDuplicate | src/libsimbricks/simbricks/base/if.h:230-247 | a run after which the code polls a held message again |
| DescPipeline.InOrderPipeline | src/sims/nic/i40e_bm/i40e_queues.cc:62-165 | for every order of DMA completions the active window is a prefix being written back, then descriptors in or after process(), then descriptors being fetched or prepared; at most 128 and fewer than the ring has entries |
| DescPipeline.OncePerDescriptor | src/sims/nic/i40e_bm/i40e_bm.h:87-108 | process() and the write-back each happen once for every descriptor, in ring order |
| DescPipeline.OneWriteBack | src/sims/nic/i40e_bm/i40e_queues.cc:235-273 | at most one write-back is in flight, it covers exactly the prefix, and its completion frees exactly the descriptors it covers |
| DescPipeline.NoLostWakeup | src/sims/nic/i40e_bm/i40e_queues.cc:135-171 | whenever no DMA is in flight every active descriptor waits in the subclass, and either 128 are active or all posted descriptors have been fetched |
| DescPipeline.FetchesAll | src/sims/nic/i40e_bm/i40e_queues.cc:66-76 | a fetch stops only at the last posted descriptor, with all contexts in use, or at the ring's end |
| DescPipeline.WritesBackAll | src/sims/nic/i40e_bm/i40e_queues.cc:135-165 | a write-back stops only at a descriptor that is not processed or at the ring's end, and none is begun while one is in flight |
| DescPipeline.EnabledIsReachable | src/sims/nic/i40e_bm/i40e_queues.cc:188-197 | the runs these results are about exist: a queue that was enabled with any number of posted descriptors is reachable |
| DescPipeline.TriggerFetchKeeps | src/sims/nic/i40e_bm/i40e_queues.cc:62-107 | starting a fetch keeps the pipeline invariant |
| DescPipeline.ProcessKeeps | src/sims/nic/i40e_bm/i40e_queues.cc:109-133 | running process() on the prepared descriptors, with whatever the subclass completes meanwhile, keeps it |
| DescPipeline.TriggerWritebackKeeps | src/sims/nic/i40e_bm/i40e_queues.cc:135-165 | starting a write-back keeps it |
| DescPipeline.WriteBackDoneKeeps | src/sims/nic/i40e_bm/i40e_queues.cc:235-273 | a completed write-back keeps it |
| DescPipeline.FetchDoneKeeps | src/sims/nic/i40e_bm/i40e_queues.cc:376-390 | a completed descriptor fetch keeps it |
| DescPipeline.DataFetchDoneKeeps | src/sims/nic/i40e_bm/i40e_queues.cc:402-418 | a completed data fetch keeps it |
| DescPipeline.DataWriteDoneKeeps | src/sims/nic/i40e_bm/i40e_queues.cc:444-448 | a completed data write keeps it |
| DescQueue.AvailExactIff | src/sims/nic/i40e_bm/i40e_queues.cc:67-69 | the 32-bit computation of available descriptors is right for all head and tail positions if and only if the ring length divides 2^32 |
| DescQueue.LengthThatFails | src/sims/nic/i40e_bm/i40e_queues.cc:67-69 | for a length that does not divide 2^32, positions at which the computation is wrong |
| DescQueue.QueueBase.constructor | src/sims/nic/i40e_bm/i40e_queues.cc:37-60 | all contexts empty, at ring entry 0 |
| DescQueue.QueueBase.FetchSize | src/sims/nic/i40e_bm/i40e_queues.cc:66-76 | the next ring entry and the size of the fetch are those of the pipeline: as many as are available, have a context and lie before the ring's end |
| DescQueue.QueueBase.TriggerFetch | src/sims/nic/i40e_bm/i40e_queues.cc:62-107 | marks exactly the contexts of the new descriptors, all of them empty before, and issues the DMA of the right entries |
| DescQueue.QueueBase.TriggerProcess | src/sims/nic/i40e_bm/i40e_queues.cc:109-133 | the two loops start exactly the prepared descriptors that follow the started ones |
| DescQueue.QueueBase.TriggerWriteback | src/sims/nic/i40e_bm/i40e_queues.cc:135-165 | marks and writes back exactly the leading processed descriptors up to the ring's end |
| DescQueue.QueueBase.WritebackDone | src/sims/nic/i40e_bm/i40e_queues.cc:235-273 | frees the written-back prefix and moves the head register, as the pipeline does |
| DescQueue.QueueBase.Trigger | src/sims/nic/i40e_bm/i40e_queues.cc:167-171 | fetch, processing and write-back in turn; the fetch and the write-back it returns are exactly those added to the operations in flight, each with the context and the ring entry of its first descriptor |
| DescQueue.QueueBase.FetchCompleted | src/sims/nic/i40e_bm/i40e_queues.cc:376-390 | the handler of a fetch does what the pipeline does: a state reached from a reachable state; and the DMA operations it returns are exactly the fetch and the write-back that were added, with their contexts and ring entries |
| DescQueue.QueueBase.DataFetchCompleted | src/sims/nic/i40e_bm/i40e_queues.cc:402-418 | the same for a data fetch |
| DescQueue.QueueBase.DataWriteCompleted | src/sims/nic/i40e_bm/i40e_queues.cc:444-448 | the same for a data write |
| DescQueue.QueueBase.WriteBackCompleted | src/sims/nic/i40e_bm/i40e_queues.cc:429-433 | the same for a write-back, after which the head register is the first descriptor not freed |
| DescQueue.QueueBase.TailWritten | src/sims/nic/i40e_bm/i40e_queues.cc:188-197 | the same for a write of the tail register |
| DescQueue.HandledIsReachable | src/sims/nic/i40e_bm/i40e_queues.cc:167-171 | every handler keeps the object among the pipeline's reachable states, so the pipeline's results hold of it |
| Checksum.ReduceIsOnesSum | src/sims/nic/e810_bm/xsums.cc:86-90 | two folds of a 32-bit sum are the one's complement sum of section 1 of RFC 1071 |
| Checksum.RawCksum | src/sims/nic/e810_bm/xsums.cc:55-84 | the loops add exactly the 16-bit words of the block, odd byte included, and 32 bits never overflow |
| Checksum.SealedVerifies | src/sims/nic/e810_bm/xsums.cc:139-153 | a block whose checksum word holds the complement of its sum with the word cleared, together with its pseudo-header, sums to all ones |
| Checksum.CorruptionDetected | src/sims/nic/e810_bm/xsums.cc:55-90 | a block that verifies does not verify any more with any one of its bytes changed |
| TcpHeaders.PhdrCksum | src/sims/nic/e810_bm/xsums.cc:99-115 | the folded sum of the pseudo-header built from the IP header |
| TcpHeaders.XsumTcpipTso | src/sims/nic/e810_bm/xsums.cc:133-154 | sets length and checksums and nothing else: the IP header verifies, and the TCP segment does exactly when there are no IP options |
| TcpHeaders.IpHeaderVerifies | src/sims/nic/e810_bm/xsums.cc:139-145 | for every content and length the IP header sums to all ones (section 3.1 of RFC 791) and holds the segment's length |
| TcpHeaders.TcpVerifiesIffNoOptions | src/sims/nic/e810_bm/xsums.cc:147-153 | pseudo-header (section 3.1 of RFC 9293) and segment sum to all ones if and only if the IP header is 20 bytes long |
| TcpHeaders.XsumL4 | src/sims/nic/e810_bm/xsums.cc:117-131 | stores the complement of the segment's sum, old checksum word included |
| TcpHeaders.XsumVerifiesIff | src/sims/nic/e810_bm/xsums.cc:117-131 | the segment then verifies if and only if the word held the pseudo-header's sum, modulo 2^16 - 1 |
| TcpHeaders.FoldedPseudoVerifies | src/sims/nic/e810_bm/xsums.cc:125-131 | in particular when it held the folded pseudo-header sum |
| TcpHeaders.PostupdateHeader | src/sims/nic/e810_bm/xsums.cc:156-162 | the sequence number grows by the payload modulo 2^32, the identifier by one modulo 2^16, and nothing else changes |
| Segmentation.StreamPreserved | src/sims/nic/e810_bm/e810_lan.cc:634-772 | the payloads of a unit's packets concatenate to the unit's payload |
| Segmentation.PacketLengths | src/sims/nic/e810_bm/e810_lan.cc:634-650 | all packets but the last carry exactly mss bytes, the last the rest |
| Segmentation.PacketNumbers | src/sims/nic/e810_bm/e810_lan.cc:738-757 | packet k has the unit's header with sequence number and identifier advanced by k packets, and valid length and checksums |
| Segmentation.SequenceAndId | src/sims/nic/e810_bm/xsums.cc:156-162 | packet k: sequence number seq0 + k * mss modulo 2^32, identifier id0 + k modulo 2^16 |
| Segmentation.SegmentRound | src/sims/nic/e810_bm/e810_lan.cc:738-757 | a buffer with packet k's header and payload becomes packet k by the fix-up, and holds packet k + 1's header after the update |
| TsoOffload.Driver.constructor | src/drivers/dpdk.hpp:551-570 | a driver with no unit in progress |
| TsoOffload.Driver.Fill | src/drivers/dpdk.hpp:572-597 | the copy loop appends the buffer to the chain: totals agree, only the last mbuf has room left, no mbuf is lost on failure |
| TsoOffload.Driver.BurstAll | src/drivers/dpdk.hpp:627-637 | the chain goes to the ports in turn up to the first that refuses it, and is given up once for each that takes it and once more on a refusal |
| TsoOffload.Driver.SendTso | src/drivers/dpdk.hpp:551-645 | a call collects the buffer, or offers the whole unit to the ports as one well-formed chain, or gives up; unless it collects nothing is left behind; the ports before the first refusal get the chain, and it is recorded how often the chain was given up; it gives up exactly when there is no support, no mbuf, or a header that does not fit in the first one |
| TsoOffload.Driver.Send | src/drivers/dpdk.hpp:518-549 | a packet cut in software goes to every port, once |
| TsoOffload.ReleasedOnceIff | src/drivers/dpdk.hpp:627-645 | a finished chain is given up exactly once if and only if the first port refuses it or the only port takes it |
| TsoOffload.ReleasedOnceForAllAnswersIff | src/drivers/dpdk.hpp:627-645 | that is so for all answers if and only if there is exactly one port |
| TxQueue.FindEop | src/sims/nic/e810_bm/e810_lan.cc:587-632 | the loop finds the first end-of-packet descriptor and the unit's length, or that the unit is incomplete, or a descriptor that is not a data descriptor |
| TxQueue.UnitIs | src/sims/nic/e810_bm/e810_lan.cc:587-648 | the code waits while no descriptor is marked end-of-packet or out of place; the unit ends at the first such descriptor; it aborts exactly if that is no data descriptor, or a packet that is not segmented is longer than 9024 bytes |
| TxQueue.ReportDescribed | src/sims/nic/e810_bm/e810_lan.cc:562-618 | what a finished unit puts on the wires, in the fields of its context and its last data descriptor: the bytes, sequence number, identifier, length and checksums of packet k at their offsets, the frame offered to the ports, or the packet with its checksum at byte 16 of a TCP and byte 6 of a UDP header |
| TxQueue.SoftEndIff | src/sims/nic/e810_bm/e810_lan.cc:686-713 | when a unit is finished in software, which takes a segment size above 0 if it is longer than its headers, exactly its descriptors leave the queue if and only if its last buffer is not empty |
| TxQueue.EmptyUnitStays | src/sims/nic/e810_bm/e810_lan.cc:763-771 | a complete unit without bytes, context descriptor and checksum request is sent but stays at the front of the queue |
| TxQueue.StopsIff | src/sims/nic/e810_bm/e810_lan.cc:774-778 | call by call over the queue and tso_off: the loop ends, whatever the hardware takes, if and only if every unit it sends ends in a buffer that is not empty and every segmented unit longer than its headers has a segment size above 0 |
| TxQueue.ZeroMssNeverEnds | src/sims/nic/e810_bm/e810_lan.cc:634-642 | a unit with segment size 0 longer than its headers: every call sends the header again |
| TxQueue.OnceEverywhereIff | src/sims/nic/e810_bm/e810_lan.cc:661-684 | on the frames each port gets: every port gets a segmented unit exactly once, as one chain or as its packets, if and only if it was not offered in hardware, or the first port refused it, or all took it |
| TxQueue.OnceForAllAnswersIff | src/drivers/dpdk.hpp:627-645 | that is so for all answers of the ports if and only if there is at most one port |
| TxQueue.FirstPortTwice | src/drivers/dpdk.hpp:627-637 | when the first port accepts and the second refuses, the first gets the chain and all the packets |
| TxQueue.Queue.constructor | src/sims/nic/e810_bm/e810_lan.cc:539-552 | an empty queue between units |
| TxQueue.Queue.Gather | src/sims/nic/e810_bm/e810_lan.cc:686-715 | the copy loop puts exactly the unit's bytes from tso_off to the limit behind what the buffer holds |
| TxQueue.Queue.TryHardware | src/sims/nic/e810_bm/e810_lan.cc:661-684 | the unit's buffers, in order, form the chain that is offered to the ports; the ports before the first refusal get it; on failure nothing is left in the driver; it is offered exactly if the driver supports that, there are enough mbufs and the headers fit in the first one |
| TxQueue.Queue.SendSegment | src/sims/nic/e810_bm/e810_lan.cc:738-757 | transmits packet k of the unit on every port and leaves packet k + 1's header in the buffer |
| TxQueue.Queue.SendPlain | src/sims/nic/e810_bm/e810_lan.cc:717-731 | transmits a packet that is not segmented on every port, with its checksum, if one is asked for |
| TxQueue.Queue.TriggerTxPacket | src/sims/nic/e810_bm/e810_lan.cc:539-772 | each call waits for a complete unit, aborts exactly on a malformed unit or an oversized packet, sends the next packet of the unit, or finishes it: the descriptors its loops have seen leave the queue, and every port has got what the unit's outcome says: a plain packet, or a chain all took, or all the packets, after the chain on the ports that took it; packets and chain are told by the fields of the unit's own descriptors |
| TxQueue.Queue.TriggerTx | src/sims/nic/e810_bm/e810_lan.cc:774-778 | for units that end in a buffer that is not empty, with a segment size above 0 where one is needed, the loop terminates; complete units leave the queue whole and in order, and each port's wire gets exactly their frames |
| DmaRemap.RingNeverStale | src/devices/vdpdk.cpp:403-425 | in every interleaving, whenever a poller uses a ring, the guest started a queue with that bus address for that device and poller, and the address used is what the mapping last given to the device has for it; also for pollers of two devices |
| DmaRemap.MappingIsLast | src/devices/vdpdk.cpp:618-637 | in every run a device's mapping is the one it was last given, and nothing else changes it |
| DmaRemap.SlotIsLatest | src/devices/vdpdk.cpp:407-425 | in every run the queue a poller finds is the one last started there, even if it stored an address in an older one meanwhile |
| DmaRemap.PollUsesRing | src/devices/vdpdk.cpp:403-425 | with the flag down a poll comes to use the ring: at once with the cached address, else after a look-up, which takes an unmapped queue off; after the lock was given away it looks the address up again |
| DmaRemap.NoRemapDuringPoll | src/devices/vdpdk.cpp:618-637 | no mapping changes while a poller is in a poll body of that device |
| DmaRemap.OneMoreBodyAtMost | src/devices/vdpdk.cpp:644-669 | in every run, once the flag is raised a poller finishes at most one more poll body on that device, counted along the run, before the vfio-user thread has the lock |
| DmaRemap.RemapCountsDown | src/devices/vdpdk.cpp:618-637 | once the flag is up a remap takes four steps of its own, and no other thread's step adds any |
| DmaRemap.HandOverCountsDown | src/devices/vdpdk.cpp:644-696 | with single-device pollers each step of a poller uses up one of a bounded number of steps before the lock is free, and no other thread's step adds any |
| DmaRemap.RemainingBound | src/devices/vdpdk.cpp:644-696 | that number is at most six for each poller |
| DmaRemap.RemapNeverStuck | src/devices/vdpdk.cpp:618-637 | a vfio-user thread in the middle of a remap can always step, or a poller it waits for can |
| DmaRemap.PollerNeverStuck | src/devices/vdpdk.cpp:644-696 | a single-device poller can always step, or waits for a remap that can go on |
| DmaRemap.RunNeverStuck | src/devices/vdpdk.cpp:618-696 | over whole runs of single-device pollers: a remap once begun can step, or a poller it waits for can |
| DmaRemap.SingleNeverBlocked | src/devices/vdpdk.cpp:644-696 | with single-device pollers no device waits for its lock for ever |
| DmaRemap.SharedPairCanBlock | src/devices/vdpdk.cpp:698-784 | in any system, two pollers of the same two devices can come to a state from which both devices wait for their locks for ever, whatever anyone does |
| DmaRemap.StartCanBlockIff | src/devices/vdpdk.cpp:806-873 | for the threads that are started: some device can come to wait for ever if and only if there are at least two devices and more than the threshold |
| DmaRemap.ServedTwice | src/devices/vdpdk.cpp:806-873 | every device is served by exactly two of the threads that are started, shared or not |
| DmaRemap.DeadlockNeedsTwo | src/devices/vdpdk.cpp:698-784 | a deadlock of the whole system takes two pollers with more than one device each |
| DmaRemap.SharedPairCanDeadlock | src/devices/vdpdk.cpp:806-832 | two shared devices alone reach one |
| DmaRemap.DeadlockIsFinal | src/devices/vdpdk.cpp:698-784 | from there no step is possible |
| DmaRemap.StepKeeps | src/devices/vdpdk.cpp:618-669 | every step of every thread keeps the invariant behind these results |
| DescCache.Conserved | src/sims/nic/e1000_gem5/i8254xGBe.h:307-324 | (head + used + unused) mod len = cachePnt, descLeft + descUsed = (tail - head) mod len, used + unused + curFetching <= size, wbOut <= used, and no transfer crosses the ring's end |
| DescCache.WrittenInOrder | src/sims/nic/e1000_gem5/i8254xGBe.cc:850-872 | descriptors are written back once each, in ring order, to the entry they were fetched from, with what their packet stored |
| DescCache.WrittenAsStored | src/sims/nic/e1000_gem5/i8254xGBe.cc:850-1036 | in every run of a configured cache the k-th descriptor written back goes to entry k mod len, is the k-th that was read and holds what the k-th packet stored, read off the run |
| DescCache.FullRequestHonouredIff | src/sims/nic/e1000_gem5/i8254xGBe.cc:802-812 | a full write-back requested while one is prepared or in flight, followed by any events up to its completion: everything used by then, up to the ring's end, is written back next if and only if the request was less restrictive than the one under way or that one left something over |
| DescCache.RequestCanBeForgotten | src/sims/nic/e1000_gem5/i8254xGBe.cc:802-812 | in a cache of any size, a run after which a full request is forgotten and a used descriptor is left with no write-back under way |
| DescCache.WritebackStarts | src/sims/nic/e1000_gem5/i8254xGBe.cc:814-843 | how many descriptors a request starts on, and when more is remembered for later |
| DescCache.AlignsDown | src/sims/nic/e1000_gem5/i8254xGBe.cc:829 | with a mask of k ones the aligned count is the largest multiple of 2^k up to the number of used descriptors |
| DescCache.AlignedWriteback | src/sims/nic/e1000_gem5/i8254xGBe.cc:821-830 | so an aligned request away from the ring's end starts on that many |
| DescCache.FetchStarts | src/sims/nic/e1000_gem5/i8254xGBe.cc:885-905 | a fetch asks for all that is posted and not cached, as far as there is room and up to the ring's end |
| DescCache.CompletionFetches | src/sims/nic/e1000_gem5/i8254xGBe.cc:1015-1036 | a completed write-back is followed by such a fetch unless the state machine is awake |
| DescCache.WritebackKeeps | src/sims/nic/e1000_gem5/i8254xGBe.cc:795-848 | a write-back request keeps the cache's invariant |
| DescCache.FetchKeeps | src/sims/nic/e1000_gem5/i8254xGBe.cc:874-924 | a fetch request keeps it |
| DescCache.FetchCompleteKeeps | src/sims/nic/e1000_gem5/i8254xGBe.cc:943-968 | a completed fetch keeps it |
| DescCache.PacketKeeps | src/sims/nic/e1000_gem5/i8254xGBe.cc:1354-1358 | a packet that has used a descriptor keeps it |
| DescCache.WrittenKeeps | src/sims/nic/e1000_gem5/i8254xGBe.cc:994-1015 | a completed write-back frees exactly what it covered and keeps it |
| DescCache.Cache.constructor | src/sims/nic/e1000_gem5/i8254xGBe.cc:1038-1053 | an empty cache of a ring with head 0 |
| DescCache.Cache.Writeback | src/sims/nic/e1000_gem5/i8254xGBe.cc:795-848 | the new state of a write-back request |
| DescCache.Cache.Writeback1 | src/sims/nic/e1000_gem5/i8254xGBe.cc:850-872 | the loop writes the first wbOut used descriptors to the entries from the head on |
| DescCache.Cache.FetchDescriptors | src/sims/nic/e1000_gem5/i8254xGBe.cc:874-924 | the new state of a fetch request |
| DescCache.Cache.FetchDescriptors1 | src/sims/nic/e1000_gem5/i8254xGBe.cc:926-941 | the DMA reads the entries from the cache pointer on, within the ring |
| DescCache.Cache.FetchComplete | src/sims/nic/e1000_gem5/i8254xGBe.cc:943-985 | the fetched descriptors follow the unused ones and the pointer moves by as many |
| DescCache.Cache.PacketComplete | src/sims/nic/e1000_gem5/i8254xGBe.cc:1354-1358 | the first unused descriptor becomes the last used one |
| DescCache.Cache.WbComplete | src/sims/nic/e1000_gem5/i8254xGBe.cc:987-1036 | frees, starts what was left over, and fetches |
| CompletionRing.DescRing.constructor | src/sims/nic/corundum_bm/corundum_bm.cc:90-101 | a ring of 2^sizeLog entries with no completion outstanding |
| CompletionRing.DescRing.UpdatePtr | src/sims/nic/corundum_bm/corundum_bm.cc:127-149 | for completions of a window in any order, across 16-bit wrap: the pointer is the first tag not completed, the vector marks exactly the later ones that are, and the result says whether the pointer moved |
| CompletionRing.DescRing.Sweep | src/sims/nic/corundum_bm/corundum_bm.cc:137-148 | the loop terminates with the pointer at the first tag not completed |
| CompletionRing.CompleteAll | src/sims/nic/corundum_bm/corundum_bm.cc:127-149 | after any permutation of completions the pointer depends only on the set of completed tags |
| CompletionRing.MarksUnique | src/sims/nic/corundum_bm/corundum_bm.cc:127-149 | and so does the vector |
| CompletionRing.LoopFollowsTagsIff | src/sims/nic/corundum_bm/corundum_bm.cc:137-147 | the loop's next bit is the next tag's for every tag if and only if the ring has at most 2^16 entries |
| CompletionRing.PointerStopsShort | src/sims/nic/corundum_bm/corundum_bm.cc:127-149 | in every larger ring: tag 0 completes early, then tag 0xffff, and the pointer stops at tag 0, which is done |
| DmaWindow.SentOnceInOrder | src/libsimbricks/simbricks/nicbm/nicbm.cc:129-165 | after any run at most 64 operations are pending, 64 if any waits, and every operation issued was sent or waits, once and in issue order |
| DmaWindow.AllSentWhenDrained | src/libsimbricks/simbricks/nicbm/nicbm.cc:150-158 | when everything has completed, everything issued was sent |
| DmaWindow.QueueAdvances | src/libsimbricks/simbricks/nicbm/nicbm.cc:318-345 | an operation with k others ahead of it in the queue is sent after k + 1 completions, whatever their handlers issue |
| DmaWindow.CompleteKeeps | src/libsimbricks/simbricks/nicbm/nicbm.cc:318-345 | a completion whose handler issues more operations keeps window and order |
| DmaWindow.Runner.constructor | src/libsimbricks/simbricks/nicbm/nicbm.cc:129-148 | nothing pending |
| DmaWindow.Runner.IssueDma | src/libsimbricks/simbricks/nicbm/nicbm.cc:129-148 | sends or queues |
| DmaWindow.Runner.DmaTrigger | src/libsimbricks/simbricks/nicbm/nicbm.cc:150-158 | sends the first of the queue if the window has room |
| DmaWindow.Runner.DmaDo | src/libsimbricks/simbricks/nicbm/nicbm.cc:160-216 | sends one operation |
| DmaWindow.Runner.DmaCompleted | src/libsimbricks/simbricks/nicbm/nicbm.cc:318-345 | the device's handler, then the count, then the queue |
| Toeplitz.HashIsMatrixProduct | src/sims/nic/e810_bm/rss.cc:57-89 | the hash as exclusive or of key windows is the product of the input with the Toeplitz matrix of the key over GF(2) |
| Toeplitz.HashLinear | src/sims/nic/e810_bm/rss.cc:57-89 | the hash is linear in its input |
| Toeplitz.KeyCache.constructor | src/sims/nic/e810_bm/rss.cc:29-31 | the cache starts dirty |
| Toeplitz.KeyCache.Build | src/sims/nic/e810_bm/rss.cc:33-51 | all 288 entries are the key's windows |
| Toeplitz.KeyCache.WriteKey | src/sims/nic/i40e_bm/i40e_bm.cc:490-493 | stores four key bytes and keeps the invariant that a clean cache matches the key |
| Toeplitz.KeyCache.Reset | src/sims/nic/i40e_bm/i40e_bm.cc:715-750 | loads the default key and keeps it |
| Toeplitz.KeyCache.HashIpv4 | src/sims/nic/e810_bm/rss.cc:57-89 | after any sequence of key writes, resets and hashes the result is the Toeplitz hash of the tuple under the current key |
| Handshake.OpenOrPolled | src/libsimbricks/simbricks/base/if.c:718-778 | after a pass without error an interface is open or has exactly one descriptor to poll, never both; it keeps its configuration and never goes back |
| Handshake.OnePass | src/libsimbricks/simbricks/base/if.c:714-791 | polled descriptors and open interfaces add up to all interfaces, so the assertions hold and the abort is unreachable; a pass fails only if some interface's calls fail |
| Handshake.VisitInterface | src/libsimbricks/simbricks/base/if.c:718-778 | the calls made for one interface |
| Handshake.Establish | src/libsimbricks/simbricks/base/if.c:707-795 | success with all interfaces counted means that all are open |
| Handshake.SameDecision | src/libsimbricks/simbricks/base/if.c:617-632 | both ends come to the same decision about synchronisation, and refuse exactly when one requires it and the other has it disabled |
| Handshake.AcceptsIff | src/libsimbricks/simbricks/base/if.c:537-692 | an introduction is accepted exactly when one is awaited, version and protocol fit, neither side insists on what the other rules out, and its memory can be used |
| Handshake.EitherOrder | src/libsimbricks/simbricks/base/if.c:434-692 | sending and receiving an introduction in either order leaves the interface open and the same |
| Handshake.OpenEndsAgree | src/libsimbricks/simbricks/base/if.c:434-692 | in every run of the two ends, when both are open they agree on synchronisation, protocol, and each queue's place, entry size and entry count |
| Handshake.HandshakeCompletes | src/libsimbricks/simbricks/base/if.c:707-795 | from every state that two ends with compatible modes and the same protocol can come to with neither having given up, at most three more passes in which no call fails and what was sent arrives leave both open |
| Handshake.CanOpenIff | src/libsimbricks/simbricks/base/if.c:434-692 | two ends can both become open if and only if their modes are compatible and they speak the same protocol |
| Handshake.FailsOnlyIf | src/libsimbricks/simbricks/base/if.c:718-778 | with such ends a pass fails only if one of its calls does |
| Handshake.MoveKeeps | src/libsimbricks/simbricks/base/if.c:434-692 | every pass of either end keeps the link's invariant |

## Left out

- The libraries behind the code: libvfio-user, VFIO, DPDK port and flow set-up, tap devices, epoll, timers, command line and scripts.
- Register read and write switches, admin-queue replies and bit-level descriptor decoding: long case tables. Descriptors are taken as decoded.
- The E810 copy of the descriptor queue, whose DMA completes inside `IssueDma` and re-enters the queue; the pipeline results are for asynchronous completion.
- Queue reset, disabling or a new base with DMA in flight: runs start with none outstanding, and base and length stay fixed.
- Data fetched in several parts (`desc_ctx::data_fetch` beyond one DMA), the descriptor bytes copied by a write-back, interrupts, and `max_*_capacity` overrides (no i40e queue has one).
- Peer termination, `exiting`, 64-bit wrap of timestamps and `EventCancel` in the clock synchronisation; allocation and sending of a message are one step there, and separate in `OwnershipRing`; handlers do finitely many operations.
- The memory model of the shared ring: the ownership bit's release and acquire are taken as sequentially consistent.
- The UDP checksum that comes out as zero, a checksum asked for a packet shorter than its headers, VLAN tags in the buffer length, and 32-bit wrap of a unit's total length.
- The header changes `send_tso` makes to its own copy (cleared IP checksum, DPDK's pseudo-header sum): the chain is recorded as it was collected.
- Loss of packets sent in software, when `Dpdk::send` finds no mbuf or a port refuses one: every port takes them.
- The race in which `tx_poll` clears a queue pointer that was replaced while it looked up an invalid ring.
- Stopping and pinning of the pollers, and fairness of the shared mutex; the receive poller is modelled by the same steps as the transmit poller.
- `areaChanged` and `reset` of the e1000 cache, the packet state machines above it, and its drain code.
- `DescRing::full()` across 16-bit wrap, and Corundum's completion and event queues.
- IPv6 and non-TCP/UDP hashing, the indirection table, interrupt throttling and PTP.
- Partial sends and malformed or truncated introductions in the handshake; a listener hears only from a connecter and the other way round.
- TxQueue.Queue.SendPlain: for UDP it states the sum only, because a stored zero has a special meaning in UDP that the code ignores.
- Handshake.Establish: covers as many passes as there are inputs, because the source's loop may wait for its peer for ever.
- DescCache.Cache.WriteTail: covers a host that never lets the tail lap the head; the device does not check it.
