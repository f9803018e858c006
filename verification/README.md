# Verification of the RRAM storage stack models

A Dafny model of the SystemC models of an RRAM storage stack, with proofs. SystemC schedules
cooperatively, so the code between two waits is one atomic step; each controller is modelled as a state
machine over such steps, and by classes whose methods do what the source's methods do on the source's own
data (packed words, `nextAddr` links, status tables, byte buffers).

Four components:

1. **DIMM controller pipeline.** `Pipeline` is the machine: sub-commands move from bank lists through the
   dispatcher, the short and long queues, the bus and the timed queues until they are counted.
   `PipelineSafety` proves what holds over every interleaving, `PipelineStall` exactly which steps spoil a
   bank for good, `PipelineDrain` that after every other run the controller can still finish everything,
   `PipelineOrder` that the commands of a bank always finish in the order they were accepted;
   `PipelineTraces` holds two short runs that spoil a bank. `Words`, `Codec`, `Hops` and `CommandQueue`
   are the 64-bit words bit by bit, `BankLists` the linked lists inside the shared entry array,
   `TimedQueue`, `RunningCount` and `CompletionDrain` the smaller queues, `PollRuns` the host's polls over
   whole runs. `Refinement` and the `Controller*` modules show that packed words, links and tables stand
   for a machine state, and the class `TeraSController` performs exactly the enabled steps. `DataBuffer`
   and `Striping` are the block and code-word views of the buffer and the spread over channels.
2. **PCIe controller.** `TagLifecycle` is the machine of tags, host commands, running counts, PCMDQ
   entries, bank lists, read buffers and side queues, `TagSafety` its invariants, `TagHistory` what enters
   the PCMDQ and in which order commands complete over whole runs; `PcieTables` and the class
   `TeraSPCIeController` are the tables and threads; `TlpArbiter` is the rotating token.
3. **Memory chip.** `FileManager` places pages in the memory file, `MemoryChip` moves a code word
   through emulation cache and data latches.
4. **Payload pool.** `TransManager` is the doubly linked list split by a cursor, on the heap.

Where the code does not do what one would expect, the model keeps the code and the exact condition is
proved: latch exclusion (`ExclusiveIffClean`), banks that stop for good (`DeadIffDirty`, `DoomedIff`,
`DrainsIff`), the bank index (`IndexAgreement`, `BanksApartIff`), replication with a 32-bit shift
(`ReplicationIff`), the page of a finished read (`PageLostIff`), the 8-bit completion count
(`PollsWellIff`, `PollsWellForever`), file offsets in 32 bits (`FileIndexExact`), a busy DL2 before a
write (`RoundTripIff`) or after a read (`WokenRaises`), the 8-bit read buffer index (`TakeOwnedIff`), the
offset of a sub-command after a wait (`OffsetIff`), and PCIe commands with a count of 0 (`ZeroIsStuck`,
`PositiveRuns`).

What the DIMM model takes from its environment: sizes are powers of two, `mAddrShifter` is
log2(block / code word), the LBA has at most 22 bits, a die has at least two code-word banks, there are at
most two dies (`Refinement.Sound`); the host writes a slot's own number into its word, gives it at least
one and at most block / code-word code words, and reuses a slot after its completion was polled. The PCIe
model has at most 256 read buffers.

## Model

| member | source | states |
|---|---|---|
| `PipelineSafety.RunSafe` | RRAMMemoryController/src/TeraSController.cpp:12-447 | over every run, whatever the interleaving of hosts, slots, channels and banks: conservation, queue bounds, credit, running counts and exactly-once completion hold together |
| `PipelineSafety.StepConserves` | RRAMMemoryController/src/TeraSController.cpp:56-128 | every live sub-command stands in exactly one place, once, and only where a command of its channel, bank and type belongs |
| `PipelineSafety.StepBounded` | RRAMMemoryController/src/ActiveCommandQueue.cpp:9-17 | short and long queue never exceed their length, and one command at most is in the dispatcher's hand or on the bus, although dispatcher and finished reads both feed the long queue |
| `PipelineSafety.StepCredited` | RRAMMemoryController/src/TeraSController.cpp:1402-1434 | per channel, credit plus reads sent and not yet answered is the initial credit |
| `PipelineSafety.StepCounted` | RRAMMemoryController/src/IntermediateCmdQueueManager.cpp:8-26 | the running count of a slot is 0 before its first sub-command is done, afterwards the number of its live sub-commands |
| `PipelineSafety.StepReporting` | RRAMMemoryController/src/TeraSController.cpp:343-384 | per slot, the completions queued so far are the commands accepted so far, in order, but for the one still open; no slot stands twice in a completion queue |
| `PipelineSafety.CompletesOnLast` | RRAMMemoryController/src/TeraSController.cpp:1219-1229 | a slot leaves the running phase exactly on the step that finishes its last live sub-command, and its counter is then 0 again |
| `PipelineSafety.LinkAppends` | RRAMMemoryController/src/TeraSController.cpp:685-752 | linking a command appends to each bank's list exactly its code words for that bank, in order, and touches no other place |
| `PipelineSafety.RunExclusive` | RRAMMemoryController/src/TeraSController.cpp:92-117 | in every run whose finished reads find DL2 free, a latch is busy iff exactly one command owns it, and that is the command that took it |
| `PipelineSafety.ExclusiveIffClean` | RRAMMemoryController/src/TeraSController.cpp:285-304 | from an exclusive state, one step keeps latch exclusion if and only if it is not a finished read meeting a busy DL2 |
| `PipelineSafety.WriteOnlyClean` | RRAMMemoryController/src/TeraSController.cpp:285-304 | runs without reads never meet that case, so exclusion holds in all of them |
| `PipelineStall.DoomedForever` | RRAMMemoryController/src/TeraSController.cpp:1129-1147 | once a bank is doomed (DL1 busy without an owner, or a read holding DL1 against a write holding DL2) it stays so in every continuation: its listed reads are never sent, its writes never finish, one that reaches the bus stays there and blocks the channel, and their slots never complete |
| `PipelineStall.BusWriteStays` | RRAMMemoryController/src/TeraSController.cpp:1132-1147 | in every reachable state: a write on the bus stays there through every continuation if and only if DL1 of its bank is busy and no write of its bank is being programmed |
| `PipelineStall.StepHealthy` | RRAMMemoryController/src/TeraSController.cpp:84-117 | from a healthy state a step keeps latches exclusive and no read and write of a bank in each other's way exactly when no finished read meets a busy DL2 and the dispatcher does not take one latch while the other type holds the other; any other step dooms a bank at once |
| `PipelineStall.DoomedIff` | RRAMMemoryController/src/TeraSController.cpp:84-117 | over all runs: some bank is doomed at the end if and only if some step was not careful in that sense |
| `PipelineStall.DeadIffDirty` | RRAMMemoryController/src/TeraSController.cpp:297-304 | over all runs: some bank's DL1 is left busy with nobody to release it if and only if some finished read met a busy DL2 |
| `PipelineDrain.Recover` | RRAMMemoryController/src/TeraSController.cpp:12-447 | from every healthy state the controller alone, without the host, can finish every command, free every latch and queue every completion |
| `PipelineDrain.DrainsIff` | RRAMMemoryController/src/TeraSController.cpp:12-447 | over all runs: the controller can still empty itself if and only if the run was careful; after any other run no continuation whatever does |
| `PipelineTraces.ReadsAlone` | RRAMMemoryController/src/TeraSController.cpp:285-304 | two reads to one bank, and nothing else, leave it dead |
| `PipelineTraces.CleanCross` | RRAMMemoryController/src/TeraSController.cpp:84-117 | one write and one read doom a bank although no finished read ever met a busy DL2 |
| `PipelineOrder.BankOrder` | RRAMMemoryController/src/TeraSController.cpp:56-332 | over every run, also one that dooms the bank: the sub-commands of a bank that are finished, reads and writes alike, are the first of those taken off its list, and these the first of those accepted for it; so no read ever overtakes an earlier write of its bank and no write an earlier read, although the two take different ways |
| `PipelineOrder.ListOrder` | RRAMMemoryController/src/TeraSController.cpp:876-891 | over every run: what was taken off a bank's list, and then what it still holds, is what was accepted for the bank, in that order |
| `PipelineOrder.ReadsInOrder` | RRAMMemoryController/src/TeraSController.cpp:343-359 | over every run: the delayed completions of reads are queued in the order in which the reads were finished |
| `BankLists.LinkStep` | RRAMMemoryController/src/TeraSController.cpp:726-752 | one turn of the linking loop appends the address to its bank's chain of nextAddr links and leaves every other chain of the shared array as it was |
| `BankLists.UnlinkStep` | RRAMMemoryController/src/TeraSController.cpp:876-891 | processBankLinkList removes exactly the front of one chain; head and tail are -1 iff the list is then empty; no other chain changes |
| `BankLists.RewriteIdle` | RRAMMemoryController/src/CommandQueueManager.cpp:14-35 | rewriting the entries of a slot with no live sub-command leaves all lists alone |
| `Geometry.IndexAgreement` | RRAMMemoryController/src/TeraSController.cpp:167-183 | all processes compute the bank index used at linking time, for every command, if and only if a die holds at least two code-word banks and there are at most two dies |
| `Geometry.WidthsAgree` | RRAMMemoryController/includes/TeraSController.h:99-104 | controller and command queue derive the same code-word bank width if and only if a die has two code-word banks or there are at most two dies |
| `Geometry.BanksApartIff` | RRAMMemoryController/src/TeraSController.cpp:727-728 | commands of one channel whose bank or chip-select bits differ go to different lists and latches if and only if a die has at least two code-word banks and there are at least two dies; otherwise two of them share one |
| `Geometry.EveryBank` | RRAMMemoryController/src/TeraSController.cpp:727-728 | with two such dies every list is reached |
| `Words.GetMask` | RRAMMemoryController/src/CommandQueueManager.cpp:187-236 | the mask loops build n ones, and masking is the remainder modulo 2^n |
| `Codec.UnpackPack` | RRAMMemoryController/src/TeraSController.cpp:902-947 | every packed word decodes to its fields, and only all-zero fields pack to 0 |
| `Codec.PackUnpack` | RRAMMemoryController/src/TeraSController.cpp:902-947 | every word in range is the packing of its decoded fields: the layout has no gap and no overlap |
| `Hops.HostDecodes` | RRAMMemoryController/Testbench/src/TestbenchTop_mod.cpp:1371-1399 | the host's word decodes to slot, type and count as given and the LBA modulo the capacity |
| `Hops.CodecChain` | RRAMMemoryController/src/TeraSController.cpp:902-947 | host, active, pending, active again: slot, queue number, type, bank, chip-select and count survive, getQueueAddress of both active words is the original PCMDQ address, and the pending word is never the empty value 0 |
| `Hops.HostBankIsKey` | RRAMMemoryController/src/TeraSController.cpp:685-727 | the bank index read from the host's word at linking time is the one of the bits every later word carries |
| `Hops.ActiveAddress` | RRAMMemoryController/src/TeraSController.cpp:917-929 | the active word keeps the whole LBA of the host's word but the channel, page included |
| `Hops.PageLostIff` | RRAMMemoryController/src/TeraSController.cpp:939-947 | the active word made again of a pending one is the first active word if and only if the page was 0: the page does not travel through the timed queue |
| `Hops.ActiveBanks` | RRAMMemoryController/src/TeraSController.cpp:1123-1137 | both branches of processLongQueueCmd compute the linking-time bank index from the active word |
| `Hops.PendingBanks` | RRAMMemoryController/src/TeraSController.cpp:281-296 | both pending processes compute it from the pending word |
| `Hops.CompletionEntryDecodes` | RRAMMemoryController/src/TeraSController.cpp:1614-1618 | the host reads back type and slot of a completion entry, and its count modulo 128 |
| `CommandQueue.CommandQueueManager.constructor` | RRAMMemoryController/includes/CommandQueueManager.h:25-58 | all entries start empty and unlinked |
| `CommandQueue.CommandQueueManager.InsertCommand` | RRAMMemoryController/src/CommandQueueManager.cpp:14-35 | the word goes to the slot's first entry, unlinked, and no other entry changes |
| `CommandQueue.CommandQueueManager.UpdateNextAddress` | RRAMMemoryController/src/CommandQueueManager.cpp:54-59 | one link changes |
| `CommandQueue.CommandQueueManager.ReplicateCommand` | RRAMMemoryController/src/CommandQueueManager.cpp:88-114 | entry i of the slot receives the replica of code word i, and every entry outside the slot's share stays |
| `CommandQueue.ClearLba` | RRAMMemoryController/src/CommandQueueManager.cpp:97-101 | the clearing loop with its 32-bit shift computes the specified mask product |
| `CommandQueue.ReplicaDecodes` | RRAMMemoryController/src/CommandQueueManager.cpp:88-114 | with at most 22 LBA bits replica i decodes to the host's slot, type and count with LBA (lba + i) modulo the capacity |
| `CommandQueue.ReplicationIff` | RRAMMemoryController/src/CommandQueueManager.cpp:97-101 | over all shifts the language defines (up to 23 LBA bits) a replica keeps the host's fields if and only if there are at most 22 LBA bits or the fields above the LBA are all zero |
| `CommandQueue.ReplicationCounterexample` | RRAMMemoryController/src/CommandQueueManager.cpp:97-101 | 23 LBA bits: code word 1 of a write into slot 5 is stored as a read in slot 0 |
| `Striping.SplitCompose` | RRAMMemoryController/src/CommandQueueManager.cpp:132-142 | every channel, bank, chip-select and page is split out of the LBA composed from it |
| `Striping.ComposeSplit` | RRAMMemoryController/src/TeraSController.cpp:704-705 | every LBA in range is composed of the address it splits into, so the split is a bijection |
| `Striping.ComposeIsNumber` | RRAMMemoryController/src/TeraSController.cpp:704-705 | the LBA as a number: consecutive LBAs run through the channels first, then the banks, the dies and the pages |
| `Striping.ReplicaChannel` | RRAMMemoryController/src/CommandQueueManager.cpp:88-142 | code word i goes to channel (lba + i) modulo the number of channels |
| `Striping.StripesEvenly` | RRAMMemoryController/src/TeraSController.cpp:685-705 | for every LBA and length, any two channels receive numbers of code words that differ by at most one |
| `TimedQueue.PendingCmdQueueManager.Notify` | RRAMMemoryController/src/PendingCmdQueueManager.cpp:8-13 | the word is inserted behind all entries not later than it, and the queue stays sorted |
| `TimedQueue.PendingCmdQueueManager.PopCommand` | RRAMMemoryController/src/PendingCmdQueueManager.cpp:18-36 | non-zero iff the front is due, and then the front word; never before its due time |
| `TimedQueue.PendingCmdQueueManager.Erase` | RRAMMemoryController/src/PendingCmdQueueManager.cpp:39-45 | exactly the front leaves |
| `TimedQueue.ReleaseOrder` | RRAMMemoryController/src/PendingCmdQueueManager.cpp:8-45 | for any delays and any interleaving of notifications and polls with a clock that never runs back: what was released followed by what is queued is all that was notified, sorted by due time and in notify order among equal due times, and nothing was released before it was due |
| `TimedQueue.FixedDelayFifo` | RRAMMemoryController/src/PendingCmdQueueManager.cpp:8-45 | with one fixed delay and a clock that never runs back, what was notified is what was released followed by what is queued: a FIFO |
| `RunningCount.IntermediateCmdQueueManager.Update` | RRAMMemoryController/src/IntermediateCmdQueueManager.cpp:8-26 | the first word of a slot sets the count less one, each further one decrements it, in 16 bits; slot and count are read from the word |
| `CompletionDrain.CompletionQueueManager.ReadCompletionQueue` | RRAMMemoryController/src/TeraSController.cpp:569-609 | a 64-byte poll pops min(size, 31) entries, none when the 8-bit count reads 0, and returns the count byte, the popped words low byte first, and zeros |
| `CompletionDrain.CompletionQueueManager.PushCommand` | RRAMMemoryController/src/CompletionQueueManager.cpp:25-29 | one word is appended |
| `CompletionDrain.PollTells` | RRAMMemoryController/Testbench/src/TestbenchTop_mod.cpp:1613-1654 | a poll of at most 256 completions tells the host exactly those it pops, in order: slot, type and the count modulo 128 |
| `PollRuns.PendingBound` | RRAMMemoryController/src/TeraSController.cpp:343-384 | in every reachable state no more completions wait than there are slots, and as many only when every slot is reported |
| `PollRuns.RunDelivers` | RRAMMemoryController/src/TeraSController.cpp:569-609 | over every run with at most 256 slots, what the host has decoded is exactly the completions queued so far, each once and in order, less those still waiting |
| `PollRuns.PollsWellIff` | RRAMMemoryController/src/TeraSController.cpp:569-573 | in every reachable state with at most 256 slots a poll takes min(size, 31) completions if and only if not all of 256 slots are reported, when the count byte reads 0 |
| `PollRuns.PollsWellForever` | RRAMMemoryController/src/TeraSController.cpp:569-573 | every poll of every run takes min(size, 31) completions if and only if there are at most 255 slots |
| `PollRuns.ManyWait` | RRAMMemoryController/src/TeraSController.cpp:206-223 | for every n up to the number of slots there is a run after which n completions wait |
| `PollRuns.ReportedForever` | RRAMMemoryController/src/TeraSController.cpp:569-573 | with 256 slots, all reported: in every continuation no command is accepted and no completion is ever delivered |
| `Refinement.ChannelStep` | RRAMMemoryController/src/TeraSController.cpp:264-332 | after a step on one channel, packed words, links and status tables of all channels stand for the new pipeline state |
| `ControllerSteps.ShortPopStands` | RRAMMemoryController/src/TeraSController.cpp:1003-1058 | sending a read from the packed short queue is the pipeline's enabled step |
| `ControllerSteps.ReadReadyStands` | RRAMMemoryController/src/TeraSController.cpp:264-304 | re-packing a finished read into the long queue and moving its latches is the pipeline's enabled step |
| `ControllerSteps.WriteMoveStands` | RRAMMemoryController/src/TeraSController.cpp:1123-1155 | the status updates of a write after the bus are the pipeline's enabled step |
| `ControllerSteps.ReadDoneStands` | RRAMMemoryController/src/TeraSController.cpp:1188-1229 | the release of DL2 and the count of a finished read are the pipeline's enabled step |
| `ControllerSteps.WriteDoneStands` | RRAMMemoryController/src/TeraSController.cpp:152-231 | the release of DL1 and the count of a programmed write are the pipeline's enabled step |
| `ControllerFront.DispatchStands` | RRAMMemoryController/src/TeraSController.cpp:75-117 | unlinking the head, creating its active word and taking its latch is the pipeline's enabled step |
| `ControllerFront.DispatchBlocked` | RRAMMemoryController/src/TeraSController.cpp:84-121 | an empty list or a busy latch is exactly when no such step exists |
| `ControllerAccept.FillKeeps` | RRAMMemoryController/src/CommandQueueManager.cpp:88-114 | inserting and replicating into an idle slot disturbs no linked list and no linked word |
| `ControllerAccept.WholeAddress` | RRAMMemoryController/src/TeraSController.cpp:917-929 | from the host's request to the dispatcher: channel and active word of code word i together are the LBA lba + i modulo the capacity |
| `ControllerAccept.LinkTurn` | RRAMMemoryController/src/TeraSController.cpp:685-752 | one turn of the linking loop, on entries and list table, is one sub-command linked |
| `ControllerAccept.AcceptStands` | RRAMMemoryController/src/TeraSController.cpp:450-494 | the filled and linked entries stand for the pipeline after the command was accepted, with the homes its replicas decode to |
| `TeraSController.TeraSController.constructor` | RRAMMemoryController/includes/TeraSController.h:49-125 | the empty controller stands for the initial pipeline state |
| `TeraSController.TeraSController.ProcessPCMDQueue` | RRAMMemoryController/src/TeraSController.cpp:450-494 | a host word for an idle slot is accepted as the command it decodes to: the slot's entries hold the replicas of the word, every other entry keeps its word, and the controller's data stands for the resulting pipeline state |
| `TeraSController.TeraSController.TeraSBankLLMethod` | RRAMMemoryController/src/TeraSController.cpp:671-753 | the loop links all code words of the slot, in order, to the lists of their channel and bank |
| `TeraSController.TeraSController.CmdDispatcher` | RRAMMemoryController/src/TeraSController.cpp:75-121 | takes the head of a bank's list iff the pipeline's dispatch step is enabled, and performs that step: the entry's active word is in the dispatcher's hand, no queue and no other channel changes |
| `TeraSController.TeraSController.DispatchQueue` | RRAMMemoryController/src/TeraSController.cpp:784-874 | the command in hand goes to the back of its queue iff there is room; nothing else of any channel changes |
| `TeraSController.TeraSController.ChanManager` | RRAMMemoryController/src/TeraSController.cpp:12-46 | a read is sent iff credit is left and the short queue is not empty, else the long queue's front; each choice is the corresponding pipeline step, and the word sent is the front of its queue |
| `TeraSController.TeraSController.SendShort` | RRAMMemoryController/src/TeraSController.cpp:1003-1050 | a credit is used and the front read goes on the bus |
| `TeraSController.TeraSController.SendLong` | RRAMMemoryController/src/TeraSController.cpp:1062-1121 | the front of the long queue goes on the bus |
| `TeraSController.TeraSController.ShortSent` | RRAMMemoryController/src/TeraSController.cpp:1052-1058 | the read waits for the chip behind all earlier reads, due exactly mReadTime from now |
| `TeraSController.TeraSController.LongSent` | RRAMMemoryController/src/TeraSController.cpp:1106-1230 | a write moves on iff its DL1 is free, and then waits behind all earlier writes, due exactly mProgramTime from now; a read is counted; otherwise no step of the pipeline exists |
| `TeraSController.TeraSController.BankSelected` | RRAMMemoryController/src/TeraSController.cpp:1157-1230 | the bank select's end releases DL2 of the right bank and counts the read once |
| `TeraSController.TeraSController.CheckResp` | RRAMMemoryController/src/TeraSController.cpp:415-420 | an answered bank select returns its credit |
| `TeraSController.TeraSController.PendingReadCmdProcess` | RRAMMemoryController/src/TeraSController.cpp:252-333 | the first reads of the timed queue, all due by now, leave it and stand re-packed at the end of the long queue in that order; every later one stays, the first of them not yet due or the long queue full; as many pipeline steps, and no other queue or channel changes |
| `TeraSController.TeraSController.PendingWriteCmdProcess` | RRAMMemoryController/src/TeraSController.cpp:146-243 | the first writes of the timed queue, all due by now, leave it and are finished as that many pipeline steps; the later ones stay, the first of them not yet due; no other queue or channel changes |
| `TeraSController.TeraSController.CompletionMethod` | RRAMMemoryController/src/TeraSController.cpp:343-359 | the oldest finished read slot is reported from the slot table |
| `TeraSController.TeraSController.ReadCompletionQueue` | RRAMMemoryController/src/TeraSController.cpp:556-611 | a poll is the pipeline's poll step and returns the payload of the queued completions |
| `DataBuffer.DataBufferManager.WriteBlockData` | RRAMMemoryController/src/DataBufferManager.cpp:9-18 | whole rows of the data replace the slot's rows; a remainder below 64 bytes and all other rows stay out of it |
| `DataBuffer.DataBufferManager.ReadBlockData` | RRAMMemoryController/src/DataBufferManager.cpp:25-34 | the caller receives the slot's rows joined, the rest of its buffer unchanged |
| `DataBuffer.DataBufferManager.WriteCWData` | RRAMMemoryController/src/DataBufferManager.cpp:40-48 | the rows of one code word are replaced and no other |
| `DataBuffer.DataBufferManager.ReadCWData` | RRAMMemoryController/src/DataBufferManager.cpp:54-61 | the caller receives the code word's rows joined |
| `DataBuffer.BlockThenCodeWord` | RRAMMemoryController/src/DataBufferManager.cpp:9-61 | a block written through its slot reads back piece i as the code word at (slot << mAddrShifter) + i, and every other code word is untouched |
| `DataBuffer.CodeWordThenCodeWord` | RRAMMemoryController/src/DataBufferManager.cpp:40-61 | a code word reads back as written and no other changes |
| `DataBuffer.CodeWordsThenBlock` | RRAMMemoryController/src/DataBufferManager.cpp:25-48 | code words written one by one read back as the concatenated block |
| `DataBuffer.SlotsApart` | RRAMMemoryController/src/DataBufferManager.cpp:9-34 | distinct slots never share a row |
| `Pool.GetFree` | TeraSPCIeController/src/CommandQueueManager.cpp:253-265 | the search finds the first free slot, and fails only when all are busy |
| `Pool.SomeFree` | TeraSPCIeController/src/iTagManager.cpp:4-16 | a table has a free slot iff fewer slots are busy than it has entries |
| `PcieTables.CommandQueueManager.Insert` | TeraSPCIeController/src/CommandQueueManager.cpp:14-43 | 1 is stored as WRITE, 2 as READ, any other command leaves the entry's type; the size grows by one |
| `PcieTables.CommandQueueManager.SetQueueFree` | TeraSPCIeController/src/CommandQueueManager.cpp:272-277 | the entry is free and in reset state |
| `PcieTables.CommandQueueManager.GetFreeQueueAddr` | TeraSPCIeController/src/CommandQueueManager.cpp:253-265 | the first free entry, if any |
| `PcieTables.iTagManager.GetFreeTag` | TeraSPCIeController/src/iTagManager.cpp:4-16 | the first free tag; without one the caller's variable keeps its value |
| `PcieTables.RunningCntTable.UpdateCnt` | TeraSPCIeController/src/RunningCntTable.cpp:20-31 | the 16-bit count is decremented and returned |
| `TagSafety.RunSafe` | TeraSPCIeController/src/TeraSPCIeController.cpp:1954-2047 | over every run tag tables, running counts, PCMDQ entries, read buffers and side queues agree, and every command is completed at most once |
| `TagSafety.SearchesSucceed` | TeraSPCIeController/src/CommandQueueManager.cpp:253-299 | in every reachable state a host queue that is not full has a free tag and a PCMDQ that is not full a free entry, so no unchecked search result is ever used |
| `TagSafety.StepAllocated` | TeraSPCIeController/src/HostCmdQueueMgr.cpp:4-35 | host queue size and PCMDQ size count the busy slots; tag and host entry are busy exactly while the command is under way |
| `TagSafety.StepCarried` | TeraSPCIeController/src/CommandQueueManager.cpp:14-30 | free entries are in reset state, and every busy entry carries the tag and the type of its command, reads included |
| `TagSafety.StepCounted` | TeraSPCIeController/src/TeraSPCIeController.cpp:1435-1471 | a tag's running count is its sub-commands still to insert plus the busy PCMDQ entries carrying it |
| `TagSafety.StepStaged` | TeraSPCIeController/src/TeraSPCIeController.cpp:1968-2045 | every tag under way stands in exactly one queue or stage |
| `TagSafety.LastIsWaiting` | TeraSPCIeController/src/TeraSPCIeController.cpp:1676-1728 | the count reaches 0 only after all sub-commands were inserted |
| `TagSafety.FreesItsOwnTag` | TeraSPCIeController/src/TeraSPCIeController.cpp:213-231 | the tag freed with a completion TLP is the tag of the command that TLP completes, and it stands nowhere else |
| `TagSafety.StepAligned` | TeraSPCIeController/src/TeraSPCIeController.cpp:365-395 | done tags and completion TLPs stay aligned position for position, and so do read buffers and data TLPs including the one in transmission |
| `TagSafety.StepChained` | TeraSPCIeController/src/TeraSPCIeController.cpp:700-720 | head, tail and nextAddr of every bank list spell out the entries inserted and not yet dispatched, each in one list, once; all lists are disjoint |
| `TagSafety.UnlinkTakesFront` | TeraSPCIeController/src/TeraSPCIeController.cpp:700-720 | the head taken off a list is the entry that has been longest in it; head is -1 iff the list is empty; no other list changes |
| `TagSafety.StepOwned` | TeraSPCIeController/src/TeraSPCIeController.cpp:1670-1673 | a read buffer is busy exactly while one sub-command or one data TLP owns it |
| `TagSafety.TakeOwnedIff` | TeraSPCIeController/src/DataBufferManager.cpp:13-24 | with the buffer index in eight bits, a read that takes a buffer becomes its only owner if and only if the free buffer's number is below 256 |
| `TagSafety.FreesItsOwnBuffer` | TeraSPCIeController/src/TeraSPCIeController.cpp:166-188 | the buffer freed after a data TLP is the buffer it was filled from, and no sub-command holds it |
| `TagSafety.StuckForever` | TeraSPCIeController/src/TeraSPCIeController.cpp:425-492 | a tag whose command has no sub-command left in flight and was not finished is never free again |
| `TagSafety.ZeroIsStuck` | TeraSPCIeController/src/TeraSPCIeController.cpp:2561-2587 | a host command with a block count of 0 is in that state from the moment it is taken up |
| `TagSafety.PositiveRuns` | TeraSPCIeController/src/TeraSPCIeController.cpp:425-492 | no tag is ever in that state when all counts are at least 1 |
| `TagHistory.RunConserves` | TeraSPCIeController/src/TeraSPCIeController.cpp:425-492 | over every run: the sub-commands inserted into the PCMDQ, then what is left of the command in hand, then what the queued commands hold, are the sub-commands of all commands fetched, in order |
| `TagHistory.EachInOrder` | TeraSPCIeController/src/TeraSPCIeController.cpp:435-482 | over every run: sub-command j of a fetched command (type, lba, count, tag) is inserted behind those of all earlier commands and its own earlier ones, with that type, LBA lba + j and that tag |
| `TagHistory.OffsetIff` | TeraSPCIeController/src/TeraSPCIeController.cpp:444-483 | over every run: the offset of sub-command j, from which the host address of its data is computed, is j if and only if none of the sub-commands 1 to j of its command had to wait for room in the PCMDQ; otherwise it is smaller |
| `TagHistory.RunOrder` | TeraSPCIeController/src/TeraSPCIeController.cpp:361-395 | over every run: completion TLPs of writes are queued in the order in which the writes finished, those of reads in the order of the reads, and they are sent in the order in which they were queued |
| `TeraSPCIeController.TeraSPCIeController.ProcessCompletionTLPCmd` | TeraSPCIeController/src/TeraSPCIeController.cpp:1968-2045 | a command is taken iff the host queue is not full, with a tag that was free; the tables then stand for the fetch step |
| `TeraSPCIeController.TeraSPCIeController.PcmdQStart` | TeraSPCIeController/src/TeraSPCIeController.cpp:425-439 | the oldest fetched command is taken up as it was fetched, LBA, count and tag; with a count of 0 nothing is in hand |
| `TeraSPCIeController.TeraSPCIeController.PcmdQInsert` | TeraSPCIeController/src/TeraSPCIeController.cpp:440-492 | a sub-command is inserted and linked to its bank's list iff the PCMDQ is not full; then one more entry is in flight |
| `TeraSPCIeController.TeraSPCIeController.TeraSBankLLMethod` | TeraSPCIeController/src/TeraSPCIeController.cpp:2659-2727 | the entry goes to the tail of its list, through the old tail's nextAddr when there is one |
| `TeraSPCIeController.TeraSPCIeController.ProcessBankLinkList` | TeraSPCIeController/src/TeraSPCIeController.cpp:700-720 | the front of the list is taken off, or the list is empty |
| `TeraSPCIeController.TeraSPCIeController.DispatchRead` | TeraSPCIeController/src/TeraSPCIeController.cpp:922-942 | a read gets a buffer iff one is free |
| `TeraSPCIeController.TeraSPCIeController.PendingWriteCmd` | TeraSPCIeController/src/TeraSPCIeController.cpp:1435-1471 | the end of a write frees its entry and finishes its tag iff the count reaches 0 |
| `TeraSPCIeController.TeraSPCIeController.MemReadCompletion` | TeraSPCIeController/src/TeraSPCIeController.cpp:1640-1724 | the end of a read queues its data TLP with its buffer, frees its entry and finishes its tag iff the count reaches 0 |
| `TeraSPCIeController.TeraSPCIeController.WriteCmdDone` | TeraSPCIeController/src/TeraSPCIeController.cpp:361-395 | tag and completion TLP of a finished write are queued together |
| `TeraSPCIeController.TeraSPCIeController.ReadDone` | TeraSPCIeController/src/TeraSPCIeController.cpp:1754-1801 | tag and completion TLP of a finished read are queued together |
| `TeraSPCIeController.TeraSPCIeController.Arbitrate` | TeraSPCIeController/src/TeraSPCIeController.cpp:80-244 | nothing is sent iff the queue the token stands at is empty; otherwise that queue loses its front, which is sent, and the other three stay; a step of the arbiter model, so that its order, bound and fairness hold here; with a completion TLP its own tag and host entry are freed |
| `TeraSPCIeController.TeraSPCIeController.DataTransmitted` | TeraSPCIeController/src/TeraSPCIeController.cpp:175-190 | the buffer freed is the one of the TLP just transmitted |
| `TlpArbiter.TokenArbiter.QueueArbiter` | TeraSPCIeController/src/TeraSPCIeController.cpp:2911-2979 | the token moves on by one whatever happens, and its queue is chosen iff it is not empty |
| `TlpArbiter.TokenArbiter.Arbitrate` | TeraSPCIeController/src/TeraSPCIeController.cpp:80-90 | the call and its pop are one step of the arbiter model |
| `TlpArbiter.TLPManager.PushTLP` | TeraSPCIeController/src/TLPManager.cpp:3-42 | one queue grows by one TLP, the others stay |
| `TlpArbiter.TLPManager.PopTLP` | TeraSPCIeController/src/TLPManager.cpp:44-79 | the front of one queue leaves, the others stay |
| `TlpArbiter.Fifo` | TeraSPCIeController/src/TLPManager.cpp:3-79 | over any calls and pushes, what a queue sent and still holds is what it held and was given, in order |
| `TlpArbiter.BoundedService` | TeraSPCIeController/src/TeraSPCIeController.cpp:2911-2979 | the TLP at position k is sent by call 4k + wait + 1, neither earlier nor later, hence within 4(k + 1) calls, whatever is pushed meanwhile |
| `TlpArbiter.FairService` | TeraSPCIeController/src/TeraSPCIeController.cpp:2911-2979 | two queues that stay non-empty are served equally often to within one |
| `FileManager.IndexInjective` | RRAMMemory/src/FileManager.cpp:20-21 | the page index is injective over channel, page, die and bank |
| `FileManager.IndexInRange` | RRAMMemory/src/FileManager.cpp:20-21 | and below the number of pages |
| `FileManager.IndexOrder` | RRAMMemory/src/FileManager.cpp:20-21 | the pages lie in the file channel by channel, within it by page number, then by die, then by bank |
| `FileManager.FileIndexExact` | RRAMMemory/src/FileManager.cpp:20-21 | the 32-bit arithmetic reaches the right byte for every page if and only if the last page starts below 4 GiB |
| `FileManager.PutThenPage` | RRAMMemory/src/FileManager.cpp:33-44 | pages do not overlap in the file |
| `FileManager.FileManager.ReadMemory` | RRAMMemory/src/FileManager.cpp:12-24 | the page at the place is read |
| `FileManager.FileManager.WriteMemory` | RRAMMemory/src/FileManager.cpp:33-44 | seen as a map from places to pages, exactly one page is replaced |
| `FileManager.FileManager.InitFile` | RRAMMemory/src/FileManager.cpp:46-65 | the file is all zeros and at least as long as asked |
| `MemoryChip.Distinct` | RRAMMemory/src/TeraSMemoryChip.cpp:854-897 | a code word of at most as many pages as there are banks never meets a latch or a page twice, wrap-around included |
| `MemoryChip.LatchesApart` | RRAMMemory/src/TeraSMemoryChip.cpp:781-786 | different dies and banks have different latches |
| `MemoryChip.PiecePlace` | RRAMMemory/src/TeraSMemoryChip.cpp:748-757 | piece k of a code word is on the chip's own channel and the die asked for, k positions behind the start among the pageNum * bankNum pages of that die, behind the last position the first; its latch is that of the same die and bank |
| `MemoryChip.WriteAllWrites` | RRAMMemory/src/TeraSMemoryChip.cpp:854-900 | the write loop stores every piece at its place, frees the latches it used, and changes no other latch or page, whatever the latches held before |
| `MemoryChip.ReadAllFetches` | RRAMMemory/src/TeraSMemoryChip.cpp:721-766 | the read loop queues every piece for DL2 behind those waiting, leaves it in DL1 where that was free, and changes nothing else |
| `MemoryChip.MoveAllRaises` | RRAMMemory/src/TeraSMemoryChip.cpp:792-818 | a turn of the thread per piece moves it to DL2 and frees its DL1 exactly where DL1 was busy and DL2 free, and changes nothing else |
| `MemoryChip.GatherAllGathers` | RRAMMemory/src/TeraSMemoryChip.cpp:405-423 | the bank-select gather puts every piece found in DL2 into its place in the cache and frees that DL2; the cache keeps its old page where DL2 was free |
| `MemoryChip.WritesPiece` | RRAMMemory/src/TeraSMemoryChip.cpp:854-900 | the page of this channel and die at position k from the start holds what the write stores as piece k: the cache's page, or what DL2 of that die and bank still held |
| `MemoryChip.WriteSpares` | RRAMMemory/src/TeraSMemoryChip.cpp:854-900 | a write changes no other page, in particular none of another channel or die |
| `MemoryChip.ReadsPiece` | RRAMMemory/src/TeraSMemoryChip.cpp:721-766 | a read brings the page of this channel and die at position k from the start into DL1 of that die and bank, unless it is busy, and queues it |
| `MemoryChip.RoundTripReturns` | RRAMMemory/src/TeraSMemoryChip.cpp:721-997 | writing a code word, reading it back, moving it up and gathering it returns what was stored; all its latches end free, no other latch and no other page changes |
| `MemoryChip.RoundTripIff` | RRAMMemory/src/TeraSMemoryChip.cpp:928-947 | the code word comes back unchanged if and only if DL2 of each of its banks was free before, or held the same page |
| `MemoryChip.BytesReturn` | RRAMMemory/src/TeraSMemoryChip.cpp:971-997 | with free latches the host's bytes come back |
| `MemoryChip.TeraSMemoryDevice.MoveDataToEmulation` | RRAMMemory/src/TeraSMemoryChip.cpp:988-997 | the cache holds the bytes cut into pages |
| `MemoryChip.TeraSMemoryDevice.MoveDataFromEmulation` | RRAMMemory/src/TeraSMemoryChip.cpp:971-980 | the cache's pages joined |
| `MemoryChip.TeraSMemoryDevice.WriteMemory` | RRAMMemory/src/TeraSMemoryChip.cpp:854-900 | the loop over banks and page numbers is the specified write of n pieces |
| `MemoryChip.TeraSMemoryDevice.ReadMemory` | RRAMMemory/src/TeraSMemoryChip.cpp:721-766 | the loop is the specified read of n pieces |
| `MemoryChip.TeraSMemoryDevice.PhyDl2Write` | RRAMMemory/src/TeraSMemoryChip.cpp:792-818 | the next bank leaves the queue; with DL2 free its page moves up when DL1 holds one; with DL2 busy the thread waits and keeps the bank |
| `MemoryChip.TeraSMemoryDevice.PhyDl2Wake` | RRAMMemory/src/TeraSMemoryChip.cpp:808-818 | after the wait the test is made once, whoever freed its DL2 |
| `MemoryChip.WokenRaises` | RRAMMemory/src/TeraSMemoryChip.cpp:808-818 | the page moves up on the wake if and only if its own DL2 has become free; otherwise it stays in DL1 and its turn is lost |
| `MemoryChip.HeldKeeps` | RRAMMemory/src/TeraSMemoryChip.cpp:806-809 | a bank that meets a busy DL2 is kept aside, the rest keep their order, and pages, latches and file stay |
| `MemoryChip.HeldThenWoken` | RRAMMemory/src/TeraSMemoryChip.cpp:806-818 | a page in DL1 that met a busy DL2 is in DL2, and DL1 free, once that DL2 was freed and the wait is over, whatever happened to the rest of the chip in between |
| `MemoryChip.BothPagesArrive` | RRAMMemory/src/TeraSMemoryChip.cpp:792-842 | two pages of one bank, the second read while the first is still in DL2: wait, gather, wake, gather deliver the first page and then the second, and leave both latches free |
| `MemoryChip.RunStores` | RRAMMemory/src/TeraSMemoryChip.cpp:721-997 | over every run of code-word writes and reads the memory file is the page store of the writes, and all latches are free in between |
| `MemoryChip.ReadReturns` | RRAMMemory/src/TeraSMemoryChip.cpp:721-997 | a read after any run gives, page by page, what the run last wrote there, whatever was written and read elsewhere |
| `MemoryChip.TeraSMemoryDevice.GatherCodeWord` | RRAMMemory/src/TeraSMemoryChip.cpp:405-423 | the loop is the specified gather of n pieces |
| `MemoryChip.TeraSMemoryDevice.CopyDataFromEmulationCache` | RRAMMemory/src/TeraSMemoryChip.cpp:928-947 | DL2 takes the piece only when it is free |
| `MemoryChip.TeraSMemoryDevice.CopyDataFromPhyDataLatch2` | RRAMMemory/src/TeraSMemoryChip.cpp:955-964 | DL2 moves to DL1 unconditionally |
| `MemoryChip.TeraSMemoryDevice.CopyDataFromPhyDataLatch1` | RRAMMemory/src/TeraSMemoryChip.cpp:908-921 | DL1 is handed out and freed only when busy |
| `MemoryChip.TeraSMemoryDevice.CopyDataToDataLatch1` | RRAMMemory/src/TeraSMemoryChip.cpp:773-790 | DL1 takes the page only when it is free |
| `MemoryChip.TeraSMemoryDevice.CopyDataToEmulationCache` | RRAMMemory/src/TeraSMemoryChip.cpp:827-842 | the cache takes the page only from a busy DL2 |
| `TransManager.TransManager.Allocate` | Common/Utilities/src/TransManager.cpp:6-20 | the call is a step of the pool: the most recently freed payload, or a fresh one when none is free, never one in use; the doubly linked list stays well linked around its cursor |
| `TransManager.TransManager.Free` | Common/Utilities/src/TransManager.cpp:25-39 | the call is a step of the pool: the payload goes on top of the stack of free ones; a node is added iff no empty one is left |
| `TransManager.PoolRuns` | Common/Utilities/src/TransManager.cpp:6-39 | over every sequence of calls, in particular that of every valid manager object: no payload is free twice or free and in use, none is lost, and as many were made as were ever in use at once |
| `TransManager.LifoReuse` | Common/Utilities/src/TransManager.cpp:6-39 | after a free and any balanced sequence of frees and allocations, the next allocation returns what was freed and restores the pool |

## Left out

- SystemC and TLM plumbing: sockets, payload phases, error responses, delta cycles, events as such. Time is a non-decreasing number, and a process may take its step whenever its guard holds.
- Log files, reports, latency, utilisation and IOPS arithmetic.
- `mMode` 1 of the completion queue (one status per slot) and its poll.
- `mCwBankStatus` and the polling wait states of the command dispatcher, which only decide when a process sleeps.
- `PipelineDrain.DrainsIff`: that the controller can finish is the existence of a schedule. Fairness of the scheduling and the events that wake a process are not modelled.
- The data itself in the DIMM pipeline: `TeraSController` does not call the data buffer, whose two views are proved in `DataBuffer`; `getAddress` and the ONFI timing are not modelled.
- The answer of a bank select is its own step; `mEndReadEvent` is notified by write responses too, so the model lets a read finish before or after its answer.
- `TimedQueue.PendingCmdQueueManager.Notify`: assumes the source's multimap keeps equal keys in insertion order; re-arming of the event is not modelled.
- `Pipeline.Apply`: the 16-bit and 8-bit counters of the source appear in `RunningCount`, `TeraSController` and `PollRuns`, where they are shown not to wrap or with the exact condition.
- The PCIe channel managers: between the dispatcher and its end a sub-command is one record with queue number, tag and type. The list of a sub-command is a parameter of its insertion; how an LBA selects channel and bank is proved for the DIMM controller.
- PCIe write-buffer hand-off, read data contents, PCIe latch status, NVMe registers, doorbells, submission and completion queue pointers, the phase tag.
- The bounds of the TLP queues: the source checks for room before a wait and not after it, so a queue may exceed its size; the model queues without bound.
- The host command's parameters other than type, LBA and count, and the memory manager behind the TLP pointers.
- The other channels of the memory chip: each has its own latches, but the source keeps one read-index queue for all of them; the model is of one channel alone.
- The chip's asynchronous write path (`RRAMMemory/src/TeraSMemoryChip.cpp:604` passes a latch offset without the page size); the synchronous `writeMemory` is modelled. `decodeAddress` and `checkAddress` are not.
- `TransManager.TransManager.Free`: resetting the payload's extensions is not modelled; freeing a payload that is not in use is excluded.
- `TLPManager_vector`, `*_old` and testbench variants, duplicate data structures, traffic generators.
