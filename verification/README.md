# Proofs for the packet engine

A Dafny model of the core of the Rush packet engine and proofs about it. The
model covers

- the Internet checksum: the portable reference and the x86_64 and aarch64
  register programs, instruction by instruction, against sections 1 and 2 of
  RFC 1071, and its chaining over blocks (`rfc1071.dfy`, `checksum.dfy`,
  `chaining.dfy`);
- packets, the freelist and links (`packet.dfy`, `link.dfy`), the apps that move
  packets between links (`basic_apps.dfy`), and DMA memory (`memory.dfy`);
- the receive and transmit descriptor rings of the 82599 driver, shared with a
  device that takes its steps at any time (`ring.dfy`, `ixgbe_rx.dfy`,
  `ixgbe_tx.dfy`);
- where every packet is, over any interleaving of all of these
  (`ownership.dfy`, `ownership_steps.dfy` for the methods that take its steps,
  and `ownership_runs.dfy` for the driver's loops as series of them);
- configurations, and the migration of a running app network from one to the
  next (`config.dfy`, `tables.dfy`, `engine.dfy`);
- the breathe order: what every run ends with (`breathe_order.dfy`,
  `breathe_loop.dfy`, `breathe_runs.dfy`), when it is independent of iteration
  order (`breathe_quiet.dfy`), when it follows a link (`breathe_links.dfy`), when
  it loses a self-linked app (`breathe_blocks.dfy`, `breathe_selflink.dfy`,
  `breathe_fixed.dfy`), and networks on which it does less than its comment says
  (`breathe_examples.dfy`).

`words.dfy` holds the machine words, `bits.dfy` the bitwise operators and
`sets.dfy` facts about finite sets.

## How the model is built

State that the program updates in place is a class, and each method is proved
against a function on values: the freelist against a `Pool`, a link against a
`Fifo`, a ring against `Tx` or `Rx`, the engine's tables against `Tables`. What
the program promises is proved about those values, for every run.

- A `Box<Packet>` is a value with the address of its memory. That no two boxes
  have one address is proved, not assumed: the freelist keeps track of which
  addresses are out (`Live`), and `ownership.dfy` shows that every packet made is
  at exactly one place.
- A panic is an outcome, not a precondition: `None`, `false`, or a constructor of
  `Outcome`. Where the source cannot panic, the method's contract shows it.
- The network device is a second process. The driver methods let it take any
  number of steps before every look at a descriptor; the run lemmas let it take
  them anywhere.
- An iteration over a hash table or hash set picks its order at random, so the
  contracts hold for every order. Nothing else is random: the candidates of the
  breathe order are collected source by source, from a sorted list of sources,
  and only the order within one set of successors varies.
- Each iteration takes an order of its own, as the library only calls the order
  arbitrary. So every result about all runs covers the runs in which an unchanged
  hash set is iterated the same way each time. Where a result says that some run
  exists, and so where it says "exactly", it means a run with such free choices:
  this concerns `QuietExactly`, `SelfLinkedLostExactly` and `LostUnlessAlone`.
  For one order per set and the first round `FirstLostExactly` gives the same
  condition for a self-linked app to be lost. In later rounds the orders of
  earlier ones bear on it, and the condition stays sufficient to keep the app
  (`SparedKept`).
- Integers are unbounded, except where width matters: the registers of the
  checksum programs, descriptor words, and the `i32` cursors of a link (which
  stay below 1024). Wrap-around of the u64 statistics is not modelled.
- Addresses of new packets, pages from the kernel, and the device's writes are
  parameters.

## Where the code and its comments differ

The model follows the code.

- The comment on chaining checksums (src/checksum.rs:50-57) holds for blocks of
  even length. Behind a block of odd length it holds exactly when the second
  block's 16-bit words sum to a multiple of 257 (`ChainTwoExact`;
  `ChainOddFails` is an example).
- The comment on the breathe order (src/engine.rs:217-224) says the order is
  deterministic. A round keeps the same candidates in every iteration order if no
  candidate is both upstream and downstream of others (`NoMiddleSuffices`), and a
  run that meets no such candidate is the only one (`QuietRunDecides`). Where all
  candidates of a round come from one source the condition is exact, for the
  round (`OrderIndependentExactly`) and for whole runs (`QuietExactly`). With
  several sources it is sufficient and not necessary (`MiddleButIndependent`).
  `OrderDependsOnIteration` is an acyclic network with two orders.
- The comment also says the order follows link dependencies when possible. In a
  run without middle candidates a link from x to y is followed if and only if x
  is a candidate by the round that exhales y (`LinkFollowedExactly`).
  `FeederTooLate` is an acyclic network on which every run has an app in front of
  the app that feeds it.
- An app linked to itself can be dropped from the breathe order
  (`SelfLinkLosesApp`). Where nothing else left feeds it, it can be lost exactly
  if it is not spared: spared means that every other candidate of its round is
  itself self-linked, is collected in front of it, and has targets only in front
  of itself, so that all of them remove themselves first
  (`SelfLinkedLostExactly`). If no candidate is collected from an earlier source,
  it is spared exactly when it is alone (`LostUnlessAlone`); otherwise it can be
  spared in company (`SparedThoughNotAlone`). Without self-links the order holds
  exactly the apps it should (`RunExact`).
- Two links on one port are accepted (src/engine.rs:201-204), and the last one put
  there wins, so the wiring depends on iteration order exactly when a port is
  shared (`OrderFreeExactly`).

## Model

| member | source | states |
|---|---|---|
| `Rfc1071.OnesSumStandsFor` | src/checksum.rs:24-28 | the end-around sum of big-endian words is the plain sum modulo 2^16 - 1, and is 0 only if the plain sum is 0 |
| `Rfc1071.ByteOrderIndependence` | src/checksum.rs:35-37 | any folded sum of little-endian words that started at the byte-swapped initial value gives, swapped back, the big-endian sum and checksum of RFC 1071 |
| `Rfc1071.AllOnesOnlyForZeros` | src/checksum.rs:24-29 | which of the two zeros comes out: the checksum from 0 is 0xffff exactly for all-zero data |
| `Rfc1071.VerificationExact` | src/checksum.rs:39-48 | the check against a value accepts exactly the checksum itself, and 0xffff where the checksum is 0 |
| `Chaining.ChainEven` | src/checksum.rs:50-57 | over any number of blocks, all but the last of even length, chaining gives the checksum of their concatenation |
| `Chaining.ChainTwoExact` | src/checksum.rs:50-57 | for two blocks, chaining is right if and only if the first has even length or the words of the second sum to a multiple of 257 |
| `Chaining.ChainOddFails` | src/checksum.rs:50-57 | two one-byte blocks for which it is wrong |
| `Checksum.ChecksumRust` | src/checksum.rs:12-30 | the reference computes the RFC 1071 checksum of the prefix, without overflow of its u64 sum up to 2^49 bytes |
| `Checksum.SumRust` | src/checksum.rs:14-23 | its loop and odd byte add up to the little-endian sum of the prefix |
| `Checksum.FoldRust` | src/checksum.rs:24-28 | its fold ends below 2^16, congruent to the sum, and 0 only for 0 |
| `Checksum.AdcAccumulates` | src/checksum.rs:73-77 | every add-with-carry keeps the accumulator congruent to what was summed, and never leaves a carry on an accumulator of all ones |
| `Checksum.CarryIn` | src/checksum.rs:163 | adding the pending carry to zero loses none |
| `Checksum.AdcLoad` | src/checksum.rs:89-117 | a little-endian load of 1, 2, 4 or 8 bytes at an even offset adds those bytes' 16-bit words |
| `Checksum.ChecksumX86` | src/checksum.rs:63-143 | the x86_64 program returns the RFC 1071 checksum for all data, lengths and initial values |
| `Checksum.TailX86` | src/checksum.rs:81-117 | its branches add what is left below 32 bytes, each byte once |
| `Checksum.BranchX86` | src/checksum.rs:89-117 | one branch is taken when its chunk fits, and leaves less than a chunk |
| `Checksum.Fold32` | src/checksum.rs:120-124 | the fold of 64 to 32 bits loses no carry and stands for the same sum |
| `Checksum.Fold16` | src/checksum.rs:125-129 | the fold of 32 to 16 bits loses no carry and stands for the same sum |
| `Checksum.TwoAdds` | src/checksum.rs:199-201 | two shifted adds give the same 16 bits as the fold with carry |
| `Checksum.FoldX86` | src/checksum.rs:118-134 | its 64 to 32 to 16 bit fold, complement and swap give the checksum |
| `Checksum.ChecksumArm` | src/checksum.rs:146-215 | the aarch64 program returns the RFC 1071 checksum for all data, lengths and initial values |
| `Checksum.LoopArm` | src/checksum.rs:156-166 | its loop over 32-byte blocks adds every block once and stops at the last |
| `Checksum.SizeBit` | src/checksum.rs:168-192 | bit k of the length says whether 2^k bytes remain after the larger chunks |
| `Checksum.ChunkBit` | src/checksum.rs:168-192 | the same for the five chunks that the program tests for |
| `Checksum.TailArm` | src/checksum.rs:168-192 | its tail blocks add what is left, the carry passed from block to block |
| `Checksum.FoldArm` | src/checksum.rs:194-206 | the carry of the last block goes into the fold, and the fold loses none |
| `Checksum.Ipsum` | src/checksum.rs:58-60 | both targets return the same, RFC 1071's checksum |
| `Packets.FreedAllExactly` | src/packet.rs:111-127 | freeing a list puts each packet back once, emptied, in order, and counts packets, bytes and wire bits |
| `Packets.WireBitsAre` | src/packet.rs:121-125 | the wire bits are 672 for each frame of at most 60 bytes, and 192 more than eight times the length for each of at least 60 |
| `Packets.RefillBound` | src/packet.rs:76-84 | after k refills 1000 (2^k - 1) packets exist, a refill is possible exactly for k up to 8, so 511000 is the most |
| `Packets.Freelist.constructor` | src/packet.rs:59-69 | the freelist starts empty with a first step of 1000 |
| `Packets.Freelist.Room` | src/packet.rs:112 | the freelist overflow panic is out of reach for a packet that is not on the list |
| `Packets.Freelist.LiveCount` | src/packet.rs:30-33 | packets out plus packets on the list are PACKETS_ALLOCATED |
| `Packets.Freelist.PreallocateStep` | src/packet.rs:70-85 | a refill succeeds if and only if it fits, adds one step of empty packets, and doubles the step |
| `Packets.Freelist.FreeInternal` | src/packet.rs:111-116 | the packet goes on the end of the list, emptied |
| `Packets.Freelist.Pop` | src/packet.rs:96-97 | the last packet of the list, empty, and at no other place |
| `Packets.Freelist.Exhausted` | src/packet.rs:76-94 | all 511000 packets are out exactly when the list is empty and a refill would not fit |
| `Packets.Freelist.Allocate` | src/packet.rs:92-98 | fails exactly when 511000 packets are out; otherwise gives an empty packet that aliases none that is out |
| `Packets.Freelist.Free` | src/packet.rs:118-127 | the packet is on the list and no longer out, and the counters grow by it |
| `Packets.Freelist.Clone` | src/packet.rs:130-135 | a fresh packet with the same length and the same bytes in front |
| `Packets.CopiedFrame` | src/packet.rs:130-135 | copying up to the length carries the whole frame over, whatever the target held |
| `Packets.FrameMeans` | src/packet.rs:24-28 | two packets carry the same frame if and only if their lengths agree and their bytes up to there |
| `Links.TransmittedAllFits` | src/link.rs:62-72 | of a series of packets a link takes the longest prefix that fits and drops the rest |
| `Links.TransmittedAllCounts` | src/link.rs:62-72 | each packet is counted once, as sent or as dropped |
| `Links.ReceivedAllCounts` | src/link.rs:52-59 | taking packets off counts each of them and its bytes as received |
| `Links.RunAccounts` | src/link.rs:52-72 | after any run on a new link, packets came out in the order accepted, drops happened at 1023 only, and all counters account for them |
| `Links.CountersTellQueue` | src/link.rs:30-32 | txpackets - rxpackets is the queue length, at most 1023, and txbytes - rxbytes the bytes queued |
| `Links.MaskWraps` | src/link.rs:46-55 | the masks are increments modulo 1024 |
| `Links.Link.constructor` | src/link.rs:37-42 | a new link is the empty queue |
| `Links.Link.Empty` | src/link.rs:44 | true if and only if nothing is queued |
| `Links.Link.Full` | src/link.rs:46 | true if and only if 1023 packets are queued |
| `Links.Link.Receive` | src/link.rs:52-59 | takes the oldest packet and counts it; fails if and only if the link is empty |
| `Links.Link.Transmit` | src/link.rs:62-72 | queues the packet behind the others, or counts a drop and frees it when 1023 are queued |
| `Links.Link.Drop` | src/link.rs:77-81 | frees every queued packet once, oldest first |
| `BasicApps.CopiesFit` | src/link.rs:62-72 | a link that got copies holds its old queue and the longest prefix of the frames that fits, and dropped the others |
| `BasicApps.Spread` | src/basic_apps.rs:72-77 | one packet: a copy is put on every output, every byte is counted as sent or freed, frees grow by what outputs dropped, the outputs go on to hold distinct live packets, none of them held elsewhere, and as many more packets are out as they keep; it fails if and only if 511000 are out when a copy is to be made |
| `BasicApps.TeeOne` | src/basic_apps.rs:67-80 | one input: all its packets are copied in order to every output and freed, it ends drained, the outputs hold distinct live packets and no packet is lost; it fails if and only if some copy cannot be made |
| `BasicApps.Tee` | src/basic_apps.rs:65-81 | all inputs: every output gets copies of one common row of packets, the inputs end drained, frees grow by the inputs and all drops, every byte of inputs and copies is counted as sent or freed, all links hold distinct live packets before and after, and exactly what the outputs kept is out in place of the inputs; it fails if and only if 511000 packets are out when some copy is to be made |
| `BasicApps.CanCopyMore` | src/basic_apps.rs:72-78 | how many packets are out when a packet is copied, after any number of packets that were copied and freed, told from the queue lengths at the start |
| `BasicApps.OutputsGot` | src/basic_apps.rs:65-81 | every output is its old queue and the longest prefix that fits of that row |
| `BasicApps.DropsGot` | src/basic_apps.rs:65-81 | the drop counters grow by what did not fit, output by output |
| `BasicApps.Sink` | src/basic_apps.rs:43-50 | every packet on every input is freed once, in order, and the inputs end drained |
| `BasicApps.Zeroed` | src/basic_apps.rs:22-24 | the source's frame has the configured length and zero bytes as far as the payload goes |
| `BasicApps.ZeroFrameIs` | src/basic_apps.rs:22-24 | a packet carries such a frame if and only if it has the configured length and all its bytes up to there are 0 |
| `BasicApps.Source` | src/basic_apps.rs:18-28 | every output gets 102 such frames, in new packets that are on no other link, or drops them when full, every byte is counted as sent or freed, and no packet is lost; it fails if and only if 511000 packets are out when one is to be made |
| `BasicApps.OwnedPut` | src/link.rs:50-51 | a packet put on one of several links is on that link alone, or freed when it is full |
| `BasicApps.OwnedFlat` | src/link.rs:50-51 | what links own in this way is a row of distinct live packets, as dropping or draining them asks for |
| `Memory.AlignLeast` | src/lib.rs:21-27 | the least multiple of the size that is not below the value |
| `Memory.Allocator.DmaAlloc` | src/memory.rs:25-41 | a chunk that has room behind its least aligned offset not below its fill mark serves the request there, and no chunk is added; otherwise exactly one is, and serves it from its start; fails exactly for requests over a huge page or of alignment 0; all blocks and chunks stay as they were |
| `Memory.Allocator.FromLast` | src/memory.rs:29-40 | the same once there is a chunk, and the fill mark that a full chunk is left with |
| `Memory.Allocator.AllocateNextChunk` | src/memory.rs:44-50 | the new chunk is the last one, unused, and apart from the others |
| `Memory.Allocator.BlocksApart` | src/memory.rs:24-41 | no two blocks ever handed out share a byte |
| `Memory.Allocator.PacketsApart` | src/packet.rs:37-43 | packets made in blocks of their own never have the same address, which is what the freelist asks of its heap |
| `Memory.Allocator.BlockInside` | src/memory.rs:30-40 | a block lies inside its chunk, and has the alignment asked for if and only if the chunk's base has it |
| `Memory.TagResolves` | src/memory.rs:78-101 | for a page aligned to its power-of-two size up to 2^44, untagging any address in it passes the tag check, and gives physical base plus offset if and only if the physical base has no tag bit |
| `Memory.TagTested` | src/memory.rs:92-101 | an address without both tag bits is refused, and any other loses just them |
| `Memory.Allocator.BlockResolves` | src/memory.rs:90-101 | the device address of any byte of a block handed out is its physical address if and only if the page's physical base has no tag bit |
| `Rings.WrapRingIsNext` | src/ixy82599/ixgbe.rs:32-34 | on a ring of a power of two slots the mask moves to the next slot |
| `Rings.UntaggedInjective` | src/memory.rs:95-101 | distinct addresses stay distinct for the device |
| `Bits.PowerOfTwoTest` | src/ixy82599/ixgbe.rs:540-542 | the ring size test accepts exactly the powers of two |
| `TxRing.Handed` | src/ixy82599/ixgbe.rs:249-267 | a written descriptor has the packet's device address, its length in the low command bits, the five command flags above it, the length again from bit 14 of the third word, and the done bit clear |
| `TxRing.DoneBit` | src/ixy82599/ixgbe.rs:744-748 | a descriptor counts as done exactly when bit 0 of its status is set |
| `TxRing.PutKeeps` | src/ixy82599/ixgbe.rs:237-274 | writing at the tail overwrites none of the outstanding descriptors |
| `TxRing.FullIs` | src/ixy82599/ixgbe.rs:238-243 | the queue counts as full exactly with n - 1 outstanding |
| `TxRing.CompleteKeeps` | src/ixy82599/ixgbe.rs:744-748 | what the device completes is the oldest descriptor it has not, still as it was handed over |
| `TxRing.BatchCompleted` | src/ixy82599/ixgbe.rs:738-748 | a done bit on the 32nd descriptor means all 32 are completed, also around the end of the ring |
| `TxRing.CleanKeeps` | src/ixy82599/ixgbe.rs:748-755 | cleaning frees 32, so the minimum is always 32, and only completed ones |
| `TxRing.TxStepSafe` | src/ixy82599/ixgbe.rs:225-283 | each step of driver or device keeps the ring's invariant and history |
| `TxRing.TxRunSafe` | src/ixy82599/ixgbe.rs:225-283 | in every interleaving frames leave in order, from their own memory with their length, no packet is freed before its frame left, and the buffers in use are those put and not freed |
| `RxRing.WriteBack` | src/ixy82599/ixgbe.rs:180-194 | what the driver reads out of a descriptor written back: status and length field, bit 0 of the status for a filled descriptor, bit 1 for the end of the packet |
| `TxRing.TxQueue.constructor` | src/ixy82599/ixgbe.rs:516-522 | a queue starts with no buffer in use |
| `TxRing.TxQueue.Start` | src/ixy82599/ixgbe.rs:583-596 | starting succeeds if and only if the ring size is a power of two, and gives a ring in order |
| `TxRing.TxQueue.Device` | src/ixy82599/ixgbe.rs:744-746 | whatever the device does between two accesses sends the next buffers in use, in order |
| `TxRing.TxQueue.FreeBatch` | src/ixy82599/ixgbe.rs:749-753 | the oldest buffers in use are freed once, in order |
| `TxRing.TxQueue.CleanOnce` | src/ixy82599/ixgbe.rs:727-759 | one pass frees the 32 oldest, or stops with fewer than 32 outstanding or with the 32nd-oldest descriptor not done when read |
| `TxRing.TxQueue.CleanTxQueue` | src/ixy82599/ixgbe.rs:723-764 | whole batches from the oldest end, every one completed on entry and never more than the device completed; at the end fewer than 32 are outstanding or the 32nd-oldest descriptor read as not done |
| `TxRing.TxQueue.Hand` | src/ixy82599/ixgbe.rs:247-272 | one packet: descriptor, buffer in use and index move together |
| `TxRing.TxQueue.SendAll` | src/ixy82599/ixgbe.rs:237-274 | packets move from the link to the ring in order, as many as wait or as leave one slot unused |
| `TxRing.TxQueue.TxBatch` | src/ixy82599/ixgbe.rs:225-283 | every whole batch completed on entry is freed, and nothing not completed; then as many packets are sent, in order, as wait or as slots are free but one; the buffers in use are the old ones without the freed batches and the packets sent |
| `RxRing.FillKeeps` | src/ixy82599/ixgbe.rs:180-186 | the device writes into the buffer of the slot it fills and into no other |
| `RxRing.TakeKeeps` | src/ixy82599/ixgbe.rs:192-211 | exchanging a filled slot's packet for a new one keeps the ring of distinct packets in order |
| `RxRing.TakePending` | src/ixy82599/ixgbe.rs:192-194 | the packet taken carries the oldest frame that waits, with the device's length |
| `RxRing.PublishKeeps` | src/ixy82599/ixgbe.rs:216-219 | handing slots back keeps the invariant |
| `RxRing.RxStepSafe` | src/ixy82599/ixgbe.rs:160-222 | each step of driver or device keeps the ring's invariant and history |
| `RxRing.RxRunSafe` | src/ixy82599/ixgbe.rs:160-222 | in every interleaving packets are taken in the order their frames arrived, with their contents and lengths, whole frames only, and none but filled descriptors is consumed |
| `RxRing.StartedSafe` | src/ixy82599/ixgbe.rs:544-577 | the started ring is in order, its tail one slot behind its index |
| `RxRing.OwnedTake` | src/ixy82599/ixgbe.rs:192-200 | the exchange keeps ring, link and freelist apart |
| `RxRing.RxQueue.constructor` | src/ixy82599/ixgbe.rs:442-447 | a queue starts without packets |
| `RxRing.RxQueue.Start` | src/ixy82599/ixgbe.rs:534-580 | starting fills the ring with new, distinct packets, or fails on a ring size that is no power of two or when packets run out |
| `RxRing.RxQueue.Device` | src/ixy82599/ixgbe.rs:180-182 | whatever the device does between two accesses keeps each slot's packet and appends to what arrived |
| `RxRing.RxQueue.Exchange` | src/ixy82599/ixgbe.rs:192-211 | the packet with the device's length goes to the link, the new one takes its slot |
| `RxRing.RxQueue.TakeOne` | src/ixy82599/ixgbe.rs:179-213 | one round: no frame waits if and only if the loop breaks; one waits that is not whole if and only if it panics for that; 511000 packets are out besides if and only if it panics for that; otherwise the frame is moved |
| `RxRing.RxQueue.Park` | src/ixy82599/ixgbe.rs:216-219 | the tail ends one slot behind the index |
| `RxRing.RxQueue.RxBatch` | src/ixy82599/ixgbe.rs:160-222 | the oldest frames, in order and each of them whole, are put on the link as by transmit, every byte of them is counted as sent or freed, and no packet is lost; the count returned is the growth of txpackets + txdrop; it ends normally if and only if the batch is full or no frame waits, and with either panic if and only if the next frame is not whole, or is and 511000 packets are out |
| `Ownership.RefillKeeps` | src/packet.rs:70-85 | a refill keeps every packet at one place |
| `Ownership.PopKeeps` | src/packet.rs:92-98 | the allocated packet is empty and was at no other place |
| `Ownership.FreeHeldKeeps` | src/packet.rs:118-127 | freeing moves a packet in scope to the freelist |
| `Ownership.TransmitKeeps` | src/link.rs:62-72 | transmit moves a packet in scope to the link or to the freelist |
| `Ownership.ReceiveKeeps` | src/link.rs:52-59 | receive moves a packet from the link into scope |
| `Ownership.NewLinkKeeps` | src/link.rs:37-42 | a new link holds nothing and moves nothing |
| `Ownership.DropLinkKeeps` | src/link.rs:77-81 | dropping a link moves its packets to the freelist |
| `Ownership.RxStartKeeps` | src/ixy82599/ixgbe.rs:544-561 | starting a receive ring moves packets in scope onto it |
| `Ownership.RxTakeKeeps` | src/ixy82599/ixgbe.rs:192-200 | taking a frame exchanges one packet on the ring for one in scope |
| `Ownership.TxPutKeeps` | src/ixy82599/ixgbe.rs:245-270 | sending moves a packet in scope onto the transmit ring |
| `Ownership.TxCleanKeeps` | src/ixy82599/ixgbe.rs:748-753 | cleaning moves the 32 oldest from the transmit ring to the freelist |
| `Ownership.NextKeeps` | src/packet.rs:30-33 | every step, of program or device, keeps every packet at exactly one place and every component in order |
| `Ownership.RunKeeps` | src/packet.rs:30-33 | every run from the start keeps every packet at exactly one place |
| `Ownership.InOnePlace` | src/packet.rs:30-33 | in every run, each packet made is at exactly one place, and PACKETS_ALLOCATED counts them |
| `Ownership.NoOverflow` | src/packet.rs:111-112 | in every run at most 511000 packets exist, 1000 (2^k - 1) of them, and there is room on the freelist for every packet that is elsewhere |
| `OwnershipSteps.AllocateStep` | src/packet.rs:92-98 | `allocate` takes a packet from the freelist into scope, as a step of the world, behind a refill when the freelist is empty |
| `OwnershipSteps.FreeStep` | src/packet.rs:118-127 | `free` moves a packet in scope to the freelist, as a step of the world |
| `OwnershipSteps.WriteStep` | src/packet.rs:24-28 | writing to a packet in scope is a step of the world that moves no packet |
| `OwnershipSteps.NewLinkStep` | src/link.rs:37-42 | a new link is a step of the world that moves no packet |
| `OwnershipSteps.TxStartStep` | src/ixy82599/ixgbe.rs:583-596 | starting a transmit queue is a step of the world that moves no packet; it fails if and only if the ring size is no power of two |
| `OwnershipSteps.TransmitStep` | src/link.rs:62-72 | `transmit` moves a packet in scope onto the link, or to the freelist when the link is full, as a step of the world |
| `OwnershipSteps.ReceiveStep` | src/link.rs:52-59 | `receive` moves the oldest packet of the link into scope, as a step of the world; it fails only on an empty link |
| `OwnershipSteps.DropStep` | src/link.rs:77-81 | dropping a link moves its packets to the freelist, as a step of the world |
| `OwnershipSteps.HandStep` | src/ixy82599/ixgbe.rs:245-272 | handing over a packet moves it from scope onto the transmit ring, as a step of the world |
| `OwnershipSteps.TellStep` | src/ixy82599/ixgbe.rs:277-280 | the write of the transmit tail register is a step of the world that moves no packet |
| `OwnershipSteps.CompleteStep` | src/ixy82599/ixgbe.rs:744-748 | a completion by the device is a step of the world that moves no packet |
| `OwnershipSteps.RetireStep` | src/ixy82599/ixgbe.rs:748-755 | cleaning one batch moves the 32 oldest packets of the ring to the freelist, as a step of the world |
| `OwnershipSteps.FillStep` | src/ixy82599/ixgbe.rs:180-186 | a frame that the device puts on the receive ring is a step of the world that moves no packet |
| `OwnershipSteps.ExchangeStep` | src/ixy82599/ixgbe.rs:192-211 | taking a frame is the exchange of its packet for a new one, then a transmit to the link |
| `OwnershipSteps.ParkStep` | src/ixy82599/ixgbe.rs:216-219 | handing slots back to the device is a step of the world that moves no packet |
| `OwnershipRuns.RunGoesOn` | src/packet.rs:30-33 | a series of steps from where a whole run is continues that run, so all that holds of runs holds after it |
| `OwnershipRuns.PathKeeps` | src/packet.rs:30-33 | every series of steps keeps every packet at exactly one place |
| `OwnershipRuns.TxBatchRun` | src/ixy82599/ixgbe.rs:225-283 | the loops of `tx_batch`, the device in between: a series of steps leads from the world before to the world after, and no box in scope changes |
| `OwnershipRuns.CleanRun` | src/ixy82599/ixgbe.rs:723-764 | the same for the cleaning loop |
| `OwnershipRuns.SendRun` | src/ixy82599/ixgbe.rs:237-274 | the same for the send loop |
| `OwnershipRuns.RxBatchRun` | src/ixy82599/ixgbe.rs:160-222 | the loop of `rx_batch`, the device in between: a series of steps leads from the world before to the world after, also behind both panics |
| `OwnershipRuns.TakeManyRun` | src/ixy82599/ixgbe.rs:178-214 | the same for the receive loop alone |
| `OwnershipRuns.RxStartRun` | src/ixy82599/ixgbe.rs:534-580 | starting a receive queue is a series of allocations and then the step that puts them all on the ring |
| `Config.ParseFormat` | src/config.rs:52-73 | parsing a formatted specification gives it back |
| `Config.ParseExactly` | src/config.rs:52-70 | for every text: it parses to the four names it says at the first place where it says any, and fails if and only if there is no such place; spaces, dots, arrow and the extent of names as in the expression |
| `Config.MatchAtExactly` | src/config.rs:69-70 | one try at one place finds exactly what the text says from there on |
| `Config.WordCharacters` | src/config.rs:69-70 | the characters of names by their codes |
| `Config.ParseExample` | src/config.rs:50-51 | the example of the documentation, formatted and parsed |
| `Config.ParseLoose` | src/config.rs:69-70 | a link without spaces and with a digit in a name |
| `Config.CanonicalStable` | src/config.rs:75-77 | canonical form is a fixed point and means the same |
| `Config.CanonicalInjective` | src/config.rs:75-77 | two canonical names with the same four parts are one name |
| `Config.Configuration.App` | src/config.rs:39-41 | an app is added or replaced, links are untouched |
| `Config.Configuration.Link` | src/config.rs:46-48 | the canonical form is added; fails if and only if the text holds no link |
| `NetworkTables.UnlinkKeeps` | src/engine.rs:208-215 | removing a link finds both ends, leaves no wrong port entry and no reference to the link, and keeps a complete wiring complete |
| `NetworkTables.StopSound` | src/engine.rs:188-191 | removing an app leaves the ports of the others right |
| `NetworkTables.StartSound` | src/engine.rs:178-185 | a new app without links leaves the ports of the others right |
| `NetworkTables.LinkKeeps` | src/engine.rs:197-205 | adding or renewing a link puts it on its two ports, whatever was there, and leaves all other ports |
| `NetworkTables.LinkAgain` | src/engine.rs:197-205 | linking what is linked changes nothing |
| `NetworkTables.PortsFollow` | src/engine.rs:77-82 | the link behind a port is the one whose name says so, and no other |
| `NetworkTables.PortsDecided` | src/engine.rs:170-172 | after linking in some order each port holds the last link put on it, and no port holds anything else |
| `NetworkTables.CompleteWhenFree` | src/engine.rs:170-172 | without shared ports, after linking in any order, every link is behind both of its ports |
| `NetworkTables.BuiltMatches` | src/engine.rs:146-175 | a network built from a configuration without shared ports matches it, in whatever order it was built |
| `NetworkTables.MatchesTidy` | src/engine.rs:142-146 | a network that matches a configuration is tidy, so the engine can migrate from it |
| `NetworkTables.ConfigurationDecides` | src/engine.rs:142-146 | two networks that match one configuration have the same apps, identities, links and complete wiring |
| `NetworkTables.OrderFreeExactly` | src/engine.rs:170-172 | the wiring is the same for every iteration order over the links, each visited once, if and only if no two links share a port |
| `NetworkTables.SharedDiffers` | src/engine.rs:201-204 | two links on one port: two iteration orders that leave different links on it |
| `Engine.DropLink` | src/link.rs:77-81 | the packets of a dropped link are freed once, those of other links stay |
| `Engine.EngineState.UnlinkApps` | src/engine.rs:208-215 | no unwrap fails, the link leaves the tables, and no table entry refers to it; the link itself is not dropped yet |
| `Engine.EngineState.UnlinkAll` | src/engine.rs:149-153 | the links not configured leave the tables, the others stay |
| `Engine.KeptReferenced` | src/engine.rs:149-153 | after the removals exactly the configured links are still referenced |
| `Engine.EngineState.DropClone` | src/engine.rs:149 | when the clone of the link table goes out of scope, exactly the links that left are dropped and their packets freed, each once |
| `Engine.EngineState.UnlinkGone` | src/engine.rs:148-153 | exactly the links not configured go and their packets are freed, each once; the others keep theirs |
| `Engine.EngineState.StopApp` | src/engine.rs:188-191 | the app is removed and its stop callback runs if it has one |
| `Engine.EngineState.StopChanged` | src/engine.rs:154-162 | exactly the apps that keep their identity stay, as they were; each of the others is stopped once, and no other callback runs |
| `Engine.EngineState.StartApp` | src/engine.rs:178-185 | a new instance without links, with the callbacks of its configuration |
| `Engine.EngineState.StartNew` | src/engine.rs:163-168 | every configured app that does not run is started, as an instance of its own with the callbacks of its configuration; the others stay as they were |
| `Engine.EngineState.LinkApps` | src/engine.rs:197-205 | the link of that name, or a new one, is put on both ports; fails if and only if an end is not an app |
| `Engine.EngineState.LinkAll` | src/engine.rs:169-172 | all configured links are put on their ports in some order, each port ending with the last; fails if and only if an end of one is not an app |
| `Engine.EngineState.Restart` | src/engine.rs:146-168 | after the removals and starts the apps are those configured: those that keep their identity as they were, each other one new with the callbacks of its configuration; each app not kept is stopped once; kept links are untouched |
| `Engine.EngineState.Configure` | src/engine.rs:146-175 | from any tidy network, shared ports or not: succeeds if and only if all link ends are configured; then apps, identities and links are the configured ones and each port holds the last link put on it, which without shared ports is the complete wiring; kept links keep object and packets, kept apps their instance, every other app is a new instance of its own with the callbacks of its configuration, each app not kept is stopped once, packets of removed links are freed once, a matching configuration changes neither table, and the lists of callbacks are those of the new tables |
| `Engine.EngineState.ConfigureAll` | src/engine.rs:142-146 | after any sequence of configurations the network is the one the last of them describes, and its lists of callbacks are those of its tables |
| `Engine.EngineState.BuildSuccessors` | src/engine.rs:228-233 | the successor map is the graph of the links between apps |
| `Engine.NetIs` | src/engine.rs:227-240 | the graph has the apps of the table that pull, those that push, and an edge exactly where a link name has these two apps |
| `Engine.CarriedIs` | src/engine.rs:217-224 | the paths of that graph are the paths of the tables |
| `Engine.BreathesBy` | src/engine.rs:225-296 | what holds of the lists on the graph, said of the tables alone |
| `Engine.SuccessorsFound` | src/engine.rs:247-283 | every app a link leads to is in the app table, so no lookup of a successor fails |
| `Engine.EngineState.ComputeBreatheOrder` | src/engine.rs:225-296 | inhale is exactly the apps of the table that pull, sorted; exhale is the outcome of a complete run of rounds, holds each app at most once, only apps of the table that push and that a path of links leads to from an app that pulls through apps that push, and without self-links all of them; no unwrap fails |
| `BreatheLoop.DelayPass` | src/engine.rs:258-273 | one pass over the candidates, for the iteration order it took, keeps some of them, each once |
| `BreatheLoop.CollectFrom` | src/engine.rs:279-292 | candidates are collected source by source, the successors of one source in the order its set is iterated, each once |
| `BreatheOrder.CollectHolds` | src/engine.rs:279-292 | whatever that order, the same candidates are collected |
| `BreatheLoop.InitialDependents` | src/engine.rs:242-253 | the first candidates are the push apps next to pull apps, each once, pull app by pull app in the order of `inhale` |
| `BreatheLoop.Discover` | src/engine.rs:279-292 | the next candidates are the push apps next to those just exhaled, not exhaled yet, each once, app by app in the order exhaled |
| `BreatheLoop.PushOrder` | src/engine.rs:242-295 | the loop ends, its rounds are a complete run, and exhale holds reachable push apps only, each once, and without self-links all of them |
| `BreatheOrder.Extended` | src/engine.rs:257-295 | each round exhales at least one push app more |
| `BreatheOrder.LeIs` | src/engine.rs:240-241 | names are in order when the first is a prefix of the second, or has the smaller character where they first differ |
| `BreatheOrder.SortKeeps` | src/engine.rs:274-275 | sorting keeps the names and orders them |
| `BreatheOrder.SortedUnique` | src/engine.rs:274-275 | sorting forgets the order it was given |
| `BreatheOrder.KeptSome` | src/engine.rs:260-273 | a round keeps at least one candidate, each once |
| `BreatheOrder.KeptLeadsToAll` | src/engine.rs:258-273 | every delayed candidate is reachable through candidates from a kept one, for every iteration order |
| `BreatheQuiet.KeptExact` | src/engine.rs:258-273 | with no candidate both upstream and downstream of others, exactly those without upstream candidate are kept |
| `BreatheQuiet.NoMiddleSuffices` | src/engine.rs:258-275 | with no candidate both upstream and downstream of others, the candidates kept are the same for every order the code can take |
| `BreatheQuiet.AnyOrder` | src/engine.rs:279-292 | candidates that all come from one source can be collected in any order |
| `BreatheQuiet.OrderIndependentExactly` | src/engine.rs:217-224 | for candidates from one source: the candidates kept are the same for every order the code can take if and only if no candidate is both upstream and downstream of others |
| `BreatheOrder.NextRoundInv` | src/engine.rs:257-295 | a round keeps candidates apart from what is exhaled, without duplicates, and makes exhale strictly longer |
| `BreatheOrder.RunReachesInOrder` | src/engine.rs:217-224 | every exhaled app ends a chain of links from a pull app through apps at strictly increasing positions |
| `BreatheOrder.RunSound` | src/engine.rs:221-223 | every run exhales each app at most once, and only push apps reachable from a pull app |
| `BreatheOrder.RunExact` | src/engine.rs:225-296 | with no push app linked to itself, every run exhales exactly the push apps reachable from a pull app, each once |
| `BreatheOrder.RunExhales` | src/engine.rs:225-296 | what every complete run exhales: each app once, reachable push apps only, and without self-links all of them |
| `BreatheBlocks.EarlierPrecedes` | src/engine.rs:279-292 | a candidate from an earlier source comes first in every order |
| `BreatheBlocks.BlockFirst` | src/engine.rs:279-292 | any candidate can come in front of all others that are not from an earlier source |
| `BreatheSelfLinks.SparedStays` | src/engine.rs:263-269 | a spared candidate is kept in every order |
| `BreatheSelfLinks.CanDrop` | src/engine.rs:263-269 | a self-linked one without upstream candidate that is not spared is dropped in some order |
| `BreatheSelfLinks.SelfLinkedLostExactly` | src/engine.rs:263-269 | a reachable self-linked push app that no path of remaining links leads to from another candidate is missing from `exhale` of some complete run through its round if and only if it is not spared there |
| `BreatheSelfLinks.LostUnlessAlone` | src/engine.rs:263-269 | if no candidate comes from an earlier source, such an app can be lost if and only if it is not the only candidate |
| `BreatheFixed.FixedIsRun` | src/engine.rs:242-295 | the rounds that one iteration order for each successor set leads to are a run, so what holds of all runs holds of them |
| `BreatheFixed.FirstLostExactly` | src/engine.rs:263-269 | with one iteration order for each set: a self-linked push app that a pull app feeds, and of what is left only itself, is missing from some `exhale` if and only if it is not spared among the first candidates |
| `BreatheFixed.SparedKept` | src/engine.rs:263-269 | with one iteration order for each set, an app that is spared in any round is exhaled |
| `BreatheQuiet.QuietRunDecides` | src/engine.rs:224 | if one run meets no middle candidate, every run goes through the same rounds and gives the same order |
| `BreatheQuiet.QuietExactly` | src/engine.rs:224 | for a run whose rounds each have one source: every run goes through its rounds if and only if it meets no middle candidate |
| `BreatheLinks.DelayedComesBack` | src/engine.rs:258-292 | without middle candidates a delayed candidate is a candidate of the next round |
| `BreatheLinks.LinkFollowedExactly` | src/engine.rs:221 | in a run without middle candidates a link from x to y, x not a pull app, is followed in `exhale` if and only if x is a candidate by the round that exhales y |
| `BreatheOrder.RunsOn` | src/engine.rs:257-295 | any rounds so far go on to a complete run |
| `BreatheExamples.OrderDependsOnIteration` | src/engine.rs:217-224 | an acyclic network with two possible orders |
| `BreatheExamples.FeederTooLate` | src/engine.rs:221 | an acyclic network on which every run has an app in front of the one that feeds it |
| `BreatheExamples.MiddleButIndependent` | src/engine.rs:279-292 | a round with a middle candidate that keeps the same candidates in every order, because each comes from a source of its own |
| `BreatheExamples.SparedThoughNotAlone` | src/engine.rs:263-269 | two self-linked candidates, of which the second is never lost |
| `BreatheExamples.SelfLinkLosesApp` | src/engine.rs:263-269 | a reachable push app linked to itself that is not exhaled |

## Left out

- PCI mapping, register initialisation, interrupts, link negotiation and waits: device input and output around the rings. Of the registers only the ring heads and tails are modelled.
- Huge page mapping, mount calls and the reading of page maps: a new page is a parameter that overlaps no page in use.
- The main loop, timers, sleeping and all reports: wall clock and printing.
- Ethernet address parsing and printing, header casts, number formatting, random bytes and device statistics: easy or not about state.
- Apps other than the source, sink and tee: an app is its pull, push and stop flags and its identity string. What a stop callback does is not modelled, only that it runs.
- Overflow of the u64 counters, and of the usize sums in the DMA allocator for alignments near 2^64.
- Packets made without root rights come from the ordinary heap; that heap too must hand out fresh memory, which is what the freelist's `heap` parameter says for both.
- The panic of the tag check while a ring is filled: packet memory comes from tagged pages, for which `TagResolves` shows that the check passes.
- What is left behind by a panic: which calls panic is exact, but after an outcome that stands for a panic the contracts promise little more than a freelist in order.
- Names in links: `\w` also matches letters and digits outside ASCII; `Config.IsWord` is its ASCII part.
- Checksum.ChecksumRust: lengths up to 2^49 bytes, below which the u64 sum cannot overflow.
- BreatheOrder.RunExact: asks for no push app linked to itself, which is sufficient, not necessary. `SelfLinkedLostExactly` is exact for the apps that only they themselves still feed; a self-linked app on a cycle with others is not characterised.
- BreatheQuiet.OrderIndependentExactly: asks that all candidates come from one source; with several sources only `NoMiddleSuffices` holds.
- BreatheQuiet.QuietExactly: asks the same of every round, and takes each iteration to be free.
- BreatheSelfLinks.SelfLinkedLostExactly: takes each iteration to be free; with one order for each set only the first round is characterised (`FirstLostExactly`).
- BreatheSelfLinks.LostUnlessAlone: the same.
- BreatheFixed.SparedKept: says when an app is kept in a later round, not when it is lost.
- OwnershipRuns.RxBatchRun: repeats the loop of `RxQueue.RxBatch` over the steps, as `TxBatchRun` and `RxStartRun` do theirs, and says where packets are; what they carry is the contract of `RxBatch`. The tee, the source and `configure` are shown step by step only.
- BreatheLinks.LinkFollowedExactly: is about runs without middle candidates; in others the order of two linked apps can depend on iteration order.
- RxRing.RxQueue.RxBatch: on the two panics the ring is not described, beyond that its packets stay apart.
- BasicApps.Tee: asks that all links of the app are different, as the run-time borrow checks of the source do.
- Memory.Allocator.BlockResolves: asks for pages of a power-of-two size up to 2^44, aligned to their size, as huge pages are.
