# r9999: proofs about the cache protocol, the reference interpreter and their tools

r9999 is a MIPS III (R4400-class) core with an inclusive L2. This project models the parts of its
repository that argue for its correctness, and proves what they are relied on for.

* **The inclusive-L2 coherence protocol** (`formal/murphi/r9999_incl.m`). All rules of the Murphi model
  as guards and state functions. The Murphi checker explores a few addresses and sets; here
  addresses, versions and sets are unbounded, and so are runs.
  `Protocol` has the rules, `Invariant` what they keep; `ControlSteps`, `DataSteps` and `Safety` prove
  that they keep it; `Coherence`, `Operations` and `Progress` have the results; `Presence` and `PresenceLimits`
  compare the protocol with and without presence bits; `DeliveryOrder`, `L2Frame` and
  `QueuedReduces` compare its two ways of delivering responses. `Hierarchy` is the system as an object
  whose methods change it in place.
* **The reference interpreter** (`interpret.cc`). `Tlb` is the architecture's translation and the TLB
  instructions, `TranslationUnit` the same with the interpreter's micro-TLB, `Pages` and `TlbLaws` what
  follows. `Exec` is one call of the interpreter on a decoded instruction, `Interpreter` its form
  as an object, `Precise` exceptions, `Faults` what they show software, `Branches` where branches go,
  `Accesses` what loads, stores and moves carry, `PageSizes` translation in numbers, `Reservation` and `FpStores` load-linked and store-conditional,
  `ByteStrings`, `Unaligned`, `UnalignedLaws` and `PairSteps` the unaligned loads and stores.
* **The random test generator** (`tests/randgen/gen_mips_test.py`). `Generator` is the script's class,
  `RandomProgram` the well-formed programs, `RandomRuns` what no run of one does, and `TestImage` and
  `TestRuns` how one runs on the interpreter, and `Preamble` what the preamble leaves for it.
* **The adder generators** (`gen_ppa.py`, `gen_rca.py`). `Adders` has netlists and what they compute,
  `AdderGenerators` the two generators.
* **The 64-bit division** that the bare-metal programs link (`hello/arith64.c`): `Division`.
* **The simulator's bit vector** (`sim_bitvec.hh`, `helper.hh`): `Words`, `BitVector`.

`Bits` has the bitwise operators as recursive functions on unbounded numbers; 32 and 64-bit widths are
written out wherever the programs cut a value off.

Verify with `dafny verify dfyconfig.toml`.

## Assumptions

* Protocol: the knobs `INCL` and `PROBE_ORDERED` are 1, `L1I_TAGONLY` and every `BUG_` knob 0, as in the
  configuration that is meant to be correct. `RSP_DECOUPLED`, `PRES`, `DMA_SNOOP`, `L1I`, `DMA`,
  `SPEC_FILL`, the number of L2 sets and the index function are parameters, and every theorem is for
  all of them unless its row says otherwise. Each L1 has one line and one request, as in the Murphi
  model. The ghost variables `dclean` and `icoh` are kept as the sets of addresses for which they are
  false.
* Interpreter: the default build, without MIPS IV and without `LLSC_BREAK_ON_LOAD`; big-endian; 48 TLB
  entries; virtual addresses of 40 bits. Instructions are given decoded, at each physical address. What an
  ALU or floating-point instruction computes, and what a move to CP0 or to the floating-point control
  register does, are function parameters, so the theorems are for all such instructions. Memory is a map
  from physical addresses to bytes. A branch in a delay slot is not modelled.
* Generator: a random choice is any value the call could return. The preamble that the script prints
  is the entry condition of a run; what an instruction computes is arbitrary, except for the few
  whose results the safety of the program rests on (ANDI, ORI, AND, DADDU, SLL by 0 and the moves from and to
  Status). Labels are numbers.
* Division: the forced division by zero is a flag in the result, and the pointer to the remainder is
  always given. Words are numbers below 2^64.
* Netlists: a wire name is the list of the positions that the script joins into it.
* Bit vector: the words are 64-bit, a call of `die` is a flag in the result.

## Findings

* **TLBP is not the CAM's comparison** (`interpret.cc:2739-2765`). It compares bits 61 to 40 of EntryHi and
  uses page-mask bits above 24, both of which translation ignores. `TlbLaws.ProbeExactlyWellFormed` gives
  for every other entry an address on which they differ, and proves that they agree on all addresses for
  exactly the entries without such bits.
* **The reservation's own lookup is not translation** (`interpret.cc:39-74`). For a 32-bit address it
  compares bits 31 to 13 only. `Reservation.ProbeRoExactlySameForm`: it agrees with translation on all
  32-bit addresses for exactly the entries whose R and bits 39 to 32 repeat bit 31. The reservation
  theorems state this as their condition. On a 64-bit address it compares bits 61 to 40 in addition,
  `Reservation.ProbeRoOnLongAddresses`.
* **A floating-point store can change a reserved line unseen** (`interpret.cc:2186-2213`, `interpret.cc:1471-1521`).
  Floating-point stores do not check their alignment, and the reservation looks at the line of the first
  byte only. `FpStores.WatchedExactlyInOneLine`: a store that leaves a reservation has left its line,
  whatever is stored, exactly when its bytes are in one line.
* **A handler's taken branch swallows the exception of its delay slot** (`interpret.cc:305-317`). The slot's
  exception is recognised by EXL being set in it, so with EXL set before, a branch that is taken goes to its
  target all the same, although the comment there says that it must not. `Faults.SlotFaultInHandler`: the
  handler is entered if and only if the branch is not taken or goes there itself; outside a handler it
  always is, `Faults.ExceptionShows`.
* **Presence bits add behaviour when responses are queued** (`formal/murphi/r9999_incl.m:209-221`). An L2 that need not ask
  the L1D may be ready to drop a line while a response to the L1D waits; one that asks every L1 is not,
  because the L1D first takes its response. `PresenceLimits.BitsReachMore` reaches such a state in every
  configuration with presence bits and an L1I; `OnlySavesExactlyStrict` proves that bits only save probes
  exactly otherwise, and `PresenceRefinesTaken` what holds always. Coherence is not affected:
  its theorems cover these configurations.
* **The signed quotient wraps in one case** (`hello/arith64.c:192-196`). `Division.ExactUnlessOverflow`: exactly for
  the most negative number divided by -1.
* **The sign trick of the division loop is not a comparison in general** (`hello/arith64.c:184`).
  `Division.SignDecidesExactly` says for which words it is one; the loop's invariant keeps it among those.
* **`find_first_unset_pair` can return the last position of a vector of odd length**, whose partner lies past
  the end (`sim_bitvec.hh:142-164`). `BitVector.PairsInsideExactlyEven`: exactly for odd lengths.
* **`find_next_set` after the last bit of the last word** looks at a word past the array
  (`sim_bitvec.hh:191-196`). `BitVector.NextSearchExactly`: among the indices in use, exactly for the last
  one of a vector of whole words; `SearchAfterTheLast` is the input. The method is total, with a flag for
  this case.

## Model

| member | source | states |
|---|---|---|
| `Coherence.AuthorityIsLatest` | formal/murphi/r9999_incl.m:189-500 | In every reachable state, of every configuration and for both response deliveries, the place that is responsible for an address (a latched writeback, the L1D, a probe answer, the L2 line or memory) holds the latest version written to it, DMA windows included. |
| `Coherence.CopiesAreLatest` | formal/murphi/r9999_incl.m:500-594 | Outside a DMA-in window every other copy is current too: the L1D's line, a fill or an uncached load's response on its way to the L1D, an L2 line that nothing above supersedes, and, once software has synchronised the address, the L1I's line and a fill on its way there. |
| `Coherence.L1LinesAreInL2` | formal/murphi/r9999_incl.m:801-814 | Inclusion and presence in every reachable state: a line in an L1 is in the L2, and with presence bits the bit of that L1 is set. |
| `Coherence.NoCheckFails` | formal/murphi/r9999_incl.m:189-760 | No assertion of any rule (one request in flight per L1, an L1D that can take its response, loads, fetches and device reads that see the latest value) fails in any reachable state in which the rule can fire. |
| `Coherence.DmaInDelivers` | formal/murphi/r9999_incl.m:701-801 | From the device's write to the signalled end of the DMA-in, along any run: when the end is signalled, memory, every copy that is left and every response still waiting for the address have the device's value, so no store, writeback or stale line has come between. |
| `Coherence.FlushLeavesNothing` | formal/murphi/r9999_incl.m:480-498 | The last step of the whole-cache flush leaves every cache without the address and memory with the latest version, for every address. |
| `Safety.StepKeeps` | formal/murphi/r9999_incl.m:189-801 | Any rule that can fire preserves the invariant (request channels, L2 state machine, L1D and L1I ports, DMA windows, values), with queued responses. |
| `Safety.StepGood` | formal/murphi/r9999_incl.m:189-801 | The same for both deliveries; with same-step delivery no response is left waiting. |
| `Safety.SameStepReachable` | formal/murphi/r9999_incl.m:283-292 | Whatever same-step delivery reaches, queued delivery reaches too: RSP_DECOUPLED only adds behaviour. |
| `QueuedReduces.QueuedReachable` | formal/murphi/r9999_incl.m:283-292 | And the converse: whatever queued delivery reaches becomes, once the waiting responses are taken, a state that same-step delivery reaches, up to the ghost set of unsynchronised addresses. |
| `QueuedReduces.TakenFirst` | formal/murphi/r9999_incl.m:586-656 | Taking all waiting responses commutes to the front of any step that changes a state and is not itself the taking of one: the step is still enabled and ends in the same state, up to the ghost set. |
| `QueuedReduces.StepAlike` | formal/murphi/r9999_incl.m:189-801 | Among the steps that change a state the ghost set influences none: states that differ in it only have the same such steps, which lead to such states again. (The check of a fetch hit, which changes nothing, reads it.) |
| `DeliveryOrder.StepLater` | formal/murphi/r9999_incl.m:283-292 | A step with same-step delivery is the step with queued delivery followed by taking the response at once. |
| `Operations.VersionsMove` | formal/murphi/r9999_incl.m:223-271 | What makes a version, in every reachable state, for every step and both deliveries: an address gets exactly one new version when the step is a store hit on it, an uncached store to it, the arrival of its line for a store miss, or the device's write to it, and keeps its version otherwise. Likewise exactly which steps mark it unclean or not synchronised, and which take the marks away: the device's write, the end of a write back, and an I-sync. |
| `Operations.WorkIsCarriedThrough` | formal/murphi/r9999_incl.m:500-620 | What the L1D begins it carries through, in every reachable state and for every step: idle, it turns to exactly what the core asks; then it goes through the parts of this work, in order, with address and kind unchanged, until it is done. A missed line is then there, with the new version in it if it was missed by a store; a store hit is in its line at once. |
| `Operations.LineIsKept` | formal/murphi/r9999_incl.m:500-670 | The L1D loses its line exactly by a miss or a flush when it is clean, by a cache operation, uncached access or page operation on it, by a probe of it, and when its data is accepted as a victim. |
| `Operations.FetchIsCarriedThrough` | formal/murphi/r9999_incl.m:616-692 | The same for fetches: a miss waits for its line, only that line comes into the L1I, and it leaves exactly by a miss, an I-sync, a flush or a probe of it. |
| `Operations.PresenceIsNoted` | formal/murphi/r9999_incl.m:209-221 | A presence bit comes up only when the L2 answers a load of that line for that L1, stays until a probe of the line is answered, the L1D has given it up by a writeback or the line goes, and a new probe asks exactly the L1s whose bit is up, or every L1 without presence bits. |
| `Operations.TransfersInOrder` | formal/murphi/r9999_incl.m:701-801 | A DMA transfer goes through its phases in order, in its direction and for its address: each phase is left exactly by the step that stands for it, a snoop or page drop that completes included. |
| `Operations.DropLeavesNothing` | formal/murphi/r9999_incl.m:336-390 | The L2 step that carries out a write back, an invalidation, a page drop or a snoop leaves no cache with the line, and memory with its latest version. |
| `Operations.UncachedIsAlone` | formal/murphi/r9999_incl.m:313-327 | While the L2 makes an uncached access no cache has the line. |
| `Operations.IdleTakesAnything` | formal/murphi/r9999_incl.m:501-583 | The core is never refused: an idle L1D can take any load, store, uncached access, cache operation or flush, but for the buffer of a transfer. |
| `Operations.FetchIsTaken` | formal/murphi/r9999_incl.m:632-692 | Nor are a fetch, unless the copy is not synchronised, or an I-sync, when no fetch is waiting. |
| `Progress.SomethingAdvances` | formal/murphi/r9999_incl.m:313-500 | No deadlock in the L2: in every reachable state in which it is not idle, a rule that moves its transaction on can fire. |
| `Progress.BusyGoesOn` | formal/murphi/r9999_incl.m:189-656 | The same for the whole system: in every reachable state in which anything is under way, in the L2, in an L1 or in the snoop queue, a rule can fire that moves the L2 on, gives it its next request, snoop or flush, or lets the L1D ask for its line or send its uncached access. |
| `Progress.NoDeadlock` | formal/murphi/r9999_incl.m:189-801 | In every reachable state some rule can fire that changes the state, as the Murphi checker asks. |
| `Progress.EveryTransactionEnds` | formal/murphi/r9999_incl.m:313-500 | No livelock either: in any run during which the L2 is never idle, the steps that move its transaction on are at most 24, or 12 for each set plus 4 in a flush walk, whatever else happens in between. |
| `Presence.StepFollows` | formal/murphi/r9999_incl.m:209-221 | With same-step delivery, no L1I or no presence bits, or from a state in which no response waits: each step of the protocol with presence bits is one or a few steps of the protocol without them, where an L1 that is not asked answers that it has nothing. |
| `Presence.PresenceRefines` | formal/murphi/r9999_incl.m:209-221 | Hence presence bits only save probes: every state reachable with them is, bits erased and unasked answers filled in, reachable without, if responses are delivered in the step or there is no L1I or there are no bits. |
| `PresenceLimits.OnlySavesExactlyStrict` | formal/murphi/r9999_incl.m:209-221 | And exactly then: for each configuration and delivery the refinement holds if and only if delivery is same-step or L1I or PRES is off. |
| `PresenceLimits.BitsReachMore` | formal/murphi/r9999_incl.m:209-221 | The counterexample for every other configuration: with queued responses, two lines of one set lead to an L2 that may drop a line while a response to the L1D still waits, which the protocol without bits never reaches. |
| `PresenceLimits.PresenceRefinesTaken` | formal/murphi/r9999_incl.m:209-221 | What holds in all configurations: once the waiting responses are taken, the state is reachable without presence bits, up to the ghost set. |
| `Hierarchy.Caches.constructor` | formal/murphi/r9999_incl.m:817-840 | The start state, which satisfies the invariant. |
| `Hierarchy.Caches.IssueD` | formal/murphi/r9999_incl.m:189-195 | The request is latched; the assertion that the slot is empty is the precondition. |
| `Hierarchy.Caches.CoreWrites` | formal/murphi/r9999_incl.m:223-231 | A core write makes a new version and marks the address unclean and unsynchronised. |
| `Hierarchy.Caches.Probe` | formal/murphi/r9999_incl.m:209-221 | Probes go to the L1s that may have the line; when there is none the L2 goes on at once. |
| `Hierarchy.Caches.TakeD` | formal/murphi/r9999_incl.m:233-271 | The L1D takes a response: a victim is dropped, a fill installed, a store performed, an operation completed. The assertions of the source are its precondition; `Take` establishes them. |
| `Hierarchy.Caches.TakeI` | formal/murphi/r9999_incl.m:273-281 | The L1I is filled. |
| `Hierarchy.Caches.Answer` | formal/murphi/r9999_incl.m:283-292 | The response is installed in the step or put in the slot, as configured. |
| `Hierarchy.Caches.Purge` | formal/murphi/r9999_incl.m:313-327 | A line that is dropped goes to memory first if it is dirty. |
| `Hierarchy.Caches.AcceptRequest` | formal/murphi/r9999_incl.m:294-311 | A latched request becomes the L2's work; a cached store is answered already here. |
| `Hierarchy.Caches.PurgeUncached` | formal/murphi/r9999_incl.m:313-327 | An uncached access first probes and drops the line. |
| `Hierarchy.Caches.CheckTag` | formal/murphi/r9999_incl.m:329-416 | The tag check: probe before a drop, probe before an eviction, else serve. |
| `Hierarchy.Caches.ServeInvalidate` | formal/murphi/r9999_incl.m:329-416 | MEM_INVL: write back and drop, then answer. |
| `Hierarchy.Caches.ServePageDrop` | formal/murphi/r9999_incl.m:329-416 | MEM_PGDROP: drop without a writeback, then answer. |
| `Hierarchy.Caches.AbsorbLatched` | formal/murphi/r9999_incl.m:329-416 | A snoop takes a writeback of its line out of the arbiter, into the line or into memory. |
| `Hierarchy.Caches.ServeSnoop` | formal/murphi/r9999_incl.m:329-416 | SNP_WBINV: absorb, write back, drop, and arm the transfer. |
| `Hierarchy.Caches.ServeSnoopDrop` | formal/murphi/r9999_incl.m:329-416 | SNP_DROP: drop, and signal the end of a DMA-in. |
| `Hierarchy.Caches.ServeWriteBack` | formal/murphi/r9999_incl.m:329-416 | MEM_WB: the data goes to memory and the line becomes invalid. |
| `Hierarchy.Caches.ServeLoad` | formal/murphi/r9999_incl.m:329-416 | MEM_LW: answer from a hit, noting who gets the line, else evict and reload. |
| `Hierarchy.Caches.ServeWrite` | formal/murphi/r9999_incl.m:329-416 | MEM_SW: merge into a hit, else evict and reload. |
| `Hierarchy.Caches.Evict` | formal/murphi/r9999_incl.m:329-416 | A dirty victim is written back before the reload. |
| `Hierarchy.Caches.Reload` | formal/murphi/r9999_incl.m:418-426 | The line comes clean from memory and the tag check is repeated. |
| `Hierarchy.Caches.AccessUncached` | formal/murphi/r9999_incl.m:428-440 | The uncached load or store reaches memory and is answered. |
| `Hierarchy.Caches.TakeSnoop` | formal/murphi/r9999_incl.m:442-451 | A queued snoop becomes the L2's work when nothing is waiting. |
| `Hierarchy.Caches.CollectAnswers` | formal/murphi/r9999_incl.m:453-470 | With all answers in, a dirty one is merged into the line, and the L2 resumes. |
| `Hierarchy.Caches.StartFlush` | formal/murphi/r9999_incl.m:472-478 | The flush walk starts at set 0. |
| `Hierarchy.Caches.FlushOneSet` | formal/murphi/r9999_incl.m:480-498 | One set: probe, write back, drop; the last set ends the flush. |
| `Hierarchy.Caches.LoadHits` | formal/murphi/r9999_incl.m:500-507 | In every state that satisfies the invariant a load that hits returns the latest version. |
| `Hierarchy.Caches.StoreHits` | formal/murphi/r9999_incl.m:508-515 | A store that hits makes the line dirty with the new version. |
| `Hierarchy.Caches.MissD` | formal/murphi/r9999_incl.m:516-535 | A miss sends its dirty victim first, or asks for the line. |
| `Hierarchy.Caches.OperateOnHit` | formal/murphi/r9999_incl.m:537-556 | CACHE hit operations give up the line and send it, or only the operation, to the L2. |
| `Hierarchy.Caches.LoadUncached` | formal/murphi/r9999_incl.m:558-570 | An uncached load first gives up the line. |
| `Hierarchy.Caches.StoreUncached` | formal/murphi/r9999_incl.m:571-584 | And an uncached store. |
| `Hierarchy.Caches.ConsumeD` | formal/murphi/r9999_incl.m:586-594 | The L1D consumes a queued response. |
| `Hierarchy.Caches.ReloadAfterVictim` | formal/murphi/r9999_incl.m:596-603 | After its victim is accepted the miss asks for the line. |
| `Hierarchy.Caches.IssueUncached` | formal/murphi/r9999_incl.m:605-614 | After its writeback is accepted the uncached access is issued. |
| `Hierarchy.Caches.WalkL1` | formal/murphi/r9999_incl.m:616-629 | The flush of the L1D line, then of the L2. |
| `Hierarchy.Caches.FetchHits` | formal/murphi/r9999_incl.m:631-638 | In every state that satisfies the invariant a fetch that hits a synchronised address returns the latest version. |
| `Hierarchy.Caches.MissI` | formal/murphi/r9999_incl.m:639-646 | A fetch miss asks for the line. |
| `Hierarchy.Caches.ConsumeI` | formal/murphi/r9999_incl.m:648-656 | The L1I consumes a queued fill. |
| `Hierarchy.Caches.AnswerD` | formal/murphi/r9999_incl.m:658-670 | The L1D answers a probe, after any response to it, and gives the line up with its data if dirty. |
| `Hierarchy.Caches.AnswerI` | formal/murphi/r9999_incl.m:672-682 | The L1I answers a probe, after any fill. |
| `Hierarchy.Caches.SyncI` | formal/murphi/r9999_incl.m:684-699 | The I-sync invalidates the L1I and synchronises the clean addresses. |
| `Hierarchy.Caches.PreFlushPage` | formal/murphi/r9999_incl.m:701-731 | The page flush before a transfer opens its window. |
| `Hierarchy.Caches.DeviceWrites` | formal/murphi/r9999_incl.m:733-741 | The device writes a new version to memory. |
| `Hierarchy.Caches.DropPage` | formal/murphi/r9999_incl.m:743-752 | The page drop after a DMA-in. |
| `Hierarchy.Caches.DeviceReads` | formal/murphi/r9999_incl.m:754-761 | In every state that satisfies the invariant the device reads the latest version, and the transfer is over. |
| `Hierarchy.Caches.QueuePreSnoop` | formal/murphi/r9999_incl.m:763-789 | The snoop before a transfer. |
| `Hierarchy.Caches.QueuePostDrop` | formal/murphi/r9999_incl.m:791-801 | The snoop after a DMA-in, with the end signalled only when it is done. |
| `Hierarchy.Caches.Run` | formal/murphi/r9999_incl.m:189-801 | Any rule, run on the object, does what the rule does to the state. |
| `Hierarchy.Caches.Take` | formal/murphi/r9999_incl.m:189-801 | Whenever the guard holds, so do the rule's assertions, and the invariant after it: no caller has to check more than the guard. |
| `TranslationUnit.Mmu.PerformAll` | interpret.cc:480-616 | The micro-TLB is invisible: over any run of translations, TLB writes, TLB instructions, CP0 writes and returns, with any page masks, every physical address, every exception and the whole machine state are those of the 48-entry CAM alone. |
| `TranslationUnit.Mmu.TranslateVa` | interpret.cc:531-616 | One translation through the micro-TLB: the result of the architecture's translation, and the cache still agrees with the CAM. |
| `TranslationUnit.Mmu.Perform` | interpret.cc:480-616 | One action of such a run. |
| `TranslationUnit.Mmu.Fill` | interpret.cc:590-596 | A walk that finds a valid entry puts it in the place of the page, and in no other. |
| `TranslationUnit.Mmu.Walk` | interpret.cc:562-613 | A CAM walk raises Invalid, Modified or Refill as the first match says, or fills an entry that agrees with the CAM. |
| `TranslationUnit.Mmu.Scan` | interpret.cc:562-572 | The scan stops at the first matching entry. |
| `TranslationUnit.HitAgrees` | interpret.cc:553-561 | What a micro-TLB hit returns is what the CAM would, for loads and for stores to dirty pages. |
| `TranslationUnit.FillAgrees` | interpret.cc:580-598 | What a CAM hit fills in agrees with the CAM for every address of the 4K page. |
| `Pages.SamePage` | interpret.cc:562-592 | An entry of any page size treats all addresses of a 4K page alike: match, half, frame and offset. This is what allows a cache by 4K page. |
| `TranslationUnit.Mmu.constructor` | interpret.cc:480-487 | The machine starts with an empty TLB and an empty micro-TLB. |
| `TranslationUnit.Mmu.Flush` | interpret.cc:487 | Afterwards no cached translation is valid. |
| `TranslationUnit.Mmu.Raise` | interpret.cc:440-478 | The TLB exceptions: BadVAddr, EntryHi, Context, XContext, EPC and BD (unless EXL is set), cause code, status and vector. |
| `TranslationUnit.Mmu.RaiseCode` | interpret.cc:198-253 | The general exceptions likewise. |
| `TranslationUnit.Mmu.RaiseUnusableFp` | interpret.cc:259-265 | Coprocessor 1 unusable, with its number. |
| `TranslationUnit.Mmu.ApplyTlbWrite` | interpret.cc:492-499 | A mirrored write changes the one entry, if there is one of this index, and leaves no stale cached translation. |
| `TranslationUnit.Mmu.ExecTlbr` | interpret.cc:2690-2703 | TLBR reads the indexed entry, or nothing past the last. |
| `TranslationUnit.Mmu.ExecTlbwi` | interpret.cc:2704-2716 | TLBWI writes it, unless the TLB is mirrored, and leaves no stale cached translation. |
| `TranslationUnit.Mmu.ExecTlbwr` | interpret.cc:2717-2738 | TLBWR writes the entry Random names and moves Random on; nothing of the kind when mirrored. |
| `TranslationUnit.Mmu.ExecTlbp` | interpret.cc:2739-2765 | TLBP gives the first entry that its comparison accepts, or the failure bit. |
| `TranslationUnit.Mmu.ExecEret` | interpret.cc:2766-2781 | ERET returns to EPC, or to ErrorEPC, and breaks the reservation. |
| `TlbLaws.RefillThenRetry` | interpret.cc:531-616 | A refill handler works: after a refill exception, staging any valid pair (dirty for a store), TLBWR and ERET, the machine is back at the faulting instruction (or its branch) with the old status, ERL clear as an exception leaves it, the new entry is the first that matches the address, and the access translates to the staged frame with the page offset, unless clearing ERL has changed the mode and with it the form of the address. |
| `TlbLaws.WrittenThenRead` | interpret.cc:2689-2738 | TLBWI, then TLBR with the same Index, gives back each staged field, and changes nothing else; an Index past the end writes and reads nothing. |
| `TlbLaws.WritesStaged` | interpret.cc:2702-2738 | TLBWI and TLBWR write one entry, of the staged fields, and leave the others. |
| `PageSizes.TranslationIs` | interpret.cc:531-592 | Translation in numbers, for all page sizes the hardware has (4K to 16M) and the unmapped segments: the first entry of that page pair, region and address space (or global in both halves) gives the frame of the odd or even page, and the address its offset in it. |
| `PageSizes.MatchesPair` | interpret.cc:555-566 | The masked comparison of an entry is an equality of page-pair numbers. |
| `PageSizes.FullPaIs` | interpret.cc:567-592 | Frame and offset are put together by page size; a frame whose low bits are clear is simply added. |
| `TranslationUnit.MirrorFollows` | interpret.cc:489-504 | With the TLB mirrored from outside it is, after any run, exactly what was reported, whatever TLB instructions have run. |
| `TlbLaws.ProbeAfterFault` | interpret.cc:2739-2765 | TLBP right after a TLB exception names the entry that raised it, or fails after a refill, when all entries are well formed. |
| `TlbLaws.ProbeExactlyWellFormed` | interpret.cc:2739-2765 | TLBP's comparison agrees with the CAM's on an entry for all addresses and ASIDs if and only if bits 61 to 40 of its EntryHi are clear and its page mask has no bit above 24. |
| `TlbLaws.RandomStaysUnwired` | interpret.cc:2730-2735 | Random stays between Wired and 47 after any number of TLBWRs. |
| `TlbLaws.RandomGoesRound` | interpret.cc:2730-2735 | Random in closed form: it counts down and goes round the unwired entries. |
| `TlbLaws.RandomDistinct` | interpret.cc:2730-2735 | No two of 48 - Wired consecutive TLBWRs write the same entry. |
| `TlbLaws.WiredStay` | interpret.cc:2717-2738 | Any number of TLBWRs leave the wired entries as they were. |
| `TlbLaws.RandomReplacement` | interpret.cc:2717-2738 | 48 - Wired consecutive TLBWRs write every unwired entry, each once, and say which write went where. |
| `Precise.ExceptionsArePrecise` | interpret.cc:2132-2215 | A step that takes an exception outside a handler changes no memory, no HI or LO, no floating-point register and no register but a link register; it is at the right vector with EPC at the instruction, or at its branch with BD set, and an ERET would resume there with the old status. |
| `Faults.ExceptionShows` | interpret.cc:196-478 | A step raises an exception if and only if its fetch, its mode, its address, its alignment or its operation gives a reason, in the order of the source, and software then finds it: the handler's address in numbers (BEV gives the base; offset 0 or 0x80 only for a missing entry with EXL clear, 0x80 exactly in a 64-bit addressing mode; else 0x180), the code and coprocessor number of the cause, and for a failed translation BadVAddr, EntryHi, Context and XContext field by field; the rest of CP0 is as it was. For a delay slot within a handler see the next row. |
| `Faults.SlotFaultInHandler` | interpret.cc:305-317 | In the delay slot of a branch run with EXL set: the registers show the exception, but the branch, if it is taken, goes to its target all the same; the handler is entered if and only if it is not taken or goes there. |
| `Faults.InstrRaises` | interpret.cc:531-616 | For each instruction: it raises an exception if and only if there is a reason, an unaligned address being one for whole loads and stores, LL, LLD and SCD only. |
| `Faults.RunsExactly` | interpret.cc:2164-2184 | An instruction runs if and only if it can be fetched, the mode has it if it is a 64-bit one, and coprocessor 1 is on if it needs that; it is the one at the translation of pc. |
| `Faults.UnimplementedNoted` | interpret.cc:270-277 | The unimplemented-operation bit is set by that exception, and no exception changes the floating-point control register otherwise. |
| `Faults.SameAlignment` | interpret.cc:531-592 | Translation keeps alignment: the source's check of the physical address is one of the virtual address. |
| `Branches.TakenGoes` | interpret.cc:837-866 | A branch is taken by its condition, read before the slot: it runs its slot and goes to pc + 4 + offset, unless the slot raises an exception; it links pc + 8 in r31, before the slot if it is likely, else after it. |
| `Branches.NotTakenGoesOn` | interpret.cc:848-866 | Not taken and not likely: the slot runs, and the next pc is the slot's own; it links all the same. |
| `Branches.LikelySkips` | interpret.cc:837-847 | Not taken and likely: the slot does not run, the next pc is pc + 8; it links all the same. |
| `Branches.JumpGoes` | interpret.cc:2664-2684 | J and JAL go to their word in the 256 MB of the slot, with pc + 8 linked before it. |
| `Branches.JumpRegGoes` | interpret.cc:2303-2321 | JR and JALR go where the register pointed before the link. |
| `Accesses.LoadIs` | interpret.cc:893-1000 | A load of any width that raises nothing puts the big-endian number of its bytes at the translated address in its register, sign-extended or not as asked, and changes nothing else but pc. |
| `Accesses.StoreIs` | interpret.cc:1007-1031 | A store of any width puts exactly its register's low bytes there, most significant first. |
| `Accesses.LinkedLoadIs` | interpret.cc:2899-2914 | LL and LLD read like a signed word and a doubleword, and leave a reservation. |
| `Accesses.CondStoreIs` | interpret.cc:1045-1088 | SC and SCD: with a reservation of the line of the translated address the register reads 1 and the bytes are stored, else it reads 0 and memory is as it was; the reservation is gone in both cases. |
| `Accesses.MovesSingle` | interpret.cc:1117-1146 | MTC1 and MFC1: a word put in a register is read from that register, and every other reads as before, with FR clear (halves of the even registers) and set. |
| `Accesses.MovesDouble` | interpret.cc:1148-1163 | DMTC1 and DMFC1 move the whole register. |
| `Accesses.LoadFpIs` | interpret.cc:1456-1505 | LWC1 and LDC1, at any address: the bytes there, in that register and in no other. |
| `Accesses.StoreFpIs` | interpret.cc:1471-1521 | SWC1 and SDC1: the bytes of that register, and no other byte. |
| `Accesses.ComputeIs` | interpret.cc:2218-2660 | The instructions that compute read their sources and write their destination only. |
| `Accesses.SystemIs` | interpret.cc:2685-2895 | So do those that compute or move floating-point, control and CP0 registers; CACHE changes nothing but pc. |
| `Accesses.StepIs` | interpret.cc:2132-2215 | A step without a branch runs the instruction at the translation of pc on the state as it is: $0 is zero, and only a store can drop the reservation. |
| `Accesses.EretIs` | interpret.cc:2766-2780 | ERET goes back to ErrorEPC, sign-extended, or else to EPC, and leaves that level only. |
| `Precise.OnlyFaultsEnter` | interpret.cc:198-253 | A step that does not write CP0 sets EXL if and only if its instruction, or the one in its delay slot, faults. |
| `Precise.NestedExceptionsKeepEpc` | interpret.cc:198-222 | Along any run inside a handler, exceptions in it and delay slots included, EPC, BD and the status (but for ERL) stay. |
| `Precise.ExceptionsResume` | interpret.cc:2766-2781 | The two composed: an exception, any handler run with exceptions of its own, then ERET, and the program is back at the instruction or branch that faulted. |
| `Precise.PlainOutcome` | interpret.cc:925-1115 | Each instruction that is not a branch either raises, with all data as they were, or does not raise, and its fault condition says which. |
| `Precise.ControlOutcome` | interpret.cc:731-864 | A branch adds to its delay slot's step only its link and the new pc, and when the slot raises the branch is not taken. |
| `Reservation.LoadLinkedStoreCond` | interpret.cc:2899-2914 | A load-linked, any steps that make no reservation, then a store-conditional after which its register reads 1, either possibly in a delay slot: it has stored to the line that was read, and no byte of that line had changed since the read. For 32-bit addresses and TLB entries and floating-point stores that stay in their line, conditions that can be checked at each step. |
| `Reservation.StoreCondMeansUndisturbed` | interpret.cc:2186-2213 | A store-conditional after which its register reads 1, also in a delay slot, means that no step of the run before it raised, returned, was another store-conditional or changed the reserved line, and that it stores to this line. For runs without another load-linked in which, at each step, the TLB entries and the address of a store are 32-bit ones and a floating-point store stays in its line. |
| `Reservation.ReservationHeld` | interpret.cc:2186-2213 | A reservation that is there at the end of a run that made none was there all along, undisturbed. For runs whose stores are seen: each goes to the line that the reservation's lookup gives, which `StoresAreSeen` shows for 32-bit addresses and TLB entries and floating-point stores that stay in their line. |
| `Reservation.LinkIsTheLineRead` | interpret.cc:2899-2910 | What a load-linked of a 32-bit address reserves is the line it reads, when all TLB entries are for such addresses. |
| `Reservation.CondSucceedsExactly` | interpret.cc:1045-1088 | A store-conditional's register reads 1 after it if and only if it has stored, with the reservation of its line; also in a delay slot. |
| `Reservation.LinkedThenStored` | interpret.cc:1045-1088 | With nothing in between, a store-conditional to the address of the load-linked succeeds and stores there, for 32-bit addresses and TLB entries. |
| `Reservation.OnlyCondStoresChangeMemory` | interpret.cc:1045-1088 | A store-conditional changes memory only when it holds the reservation of the line it stores to. |
| `Reservation.StoresAreSeen` | interpret.cc:2205-2211 | A store of a 32-bit address goes to the line that the reservation's lookup sees, and to no other, when all TLB entries are for such addresses and a floating-point store, whose alignment is not checked, stays in its line. |
| `Reservation.ProbeRoOnLongAddresses` | interpret.cc:39-74 | On a 64-bit address the probe's comparison is the CAM's and one of bits 61 to 40, which translation ignores. |
| `FpStores.WatchedExactlyInOneLine` | interpret.cc:2186-2213 | Whatever is reserved, stored and in memory: a floating-point store after which a reservation is still there has left the reserved line alone, if and only if the bytes it stores to are in one line. |
| `Reservation.ProbePaIsTranslation` | interpret.cc:39-74 | For such an address that translates, the probe the reservation uses gives the physical address of the translation. |
| `Reservation.ProbeRoExactlySameForm` | interpret.cc:39-74 | The probe's comparison agrees with the CAM's on an entry for all 32-bit addresses and ASIDs if and only if R and bits 39 to 32 of its EntryHi repeat bit 31. |
| `Interpreter.Interpreter.constructor` | interpret.cc:2132-2137 | The machine starts with zero registers and empty memory. |
| `Interpreter.Interpreter.RaiseException` | interpret.cc:233-253 | A general exception, with the reservation lost. |
| `Interpreter.Interpreter.LoadMem` | interpret.cc:925-1040 | A load translates, checks its alignment on the physical address, extends, and raises with the register unchanged. |
| `Interpreter.Interpreter.StoreMem` | interpret.cc:925-1115 | A store likewise; one that raises writes nothing. |
| `Interpreter.Interpreter.LoadPartOf` | interpret.cc:1257-1390 | The left and right loads merge with the register. |
| `Interpreter.Interpreter.StorePartOf` | interpret.cc:1202-1256 | The left and right stores merge with memory. |
| `Interpreter.Interpreter.LoadFpMem` | interpret.cc:1456-1505 | LWC1 and LDC1: no alignment check; with FR clear a word goes to a half of an even register and a doubleword to an odd one is reserved. |
| `Interpreter.Interpreter.StoreFpMem` | interpret.cc:1471-1521 | SWC1 and SDC1 likewise. |
| `Interpreter.Interpreter.MoveFp` | interpret.cc:1117-1164 | The moves between general and floating-point registers. |
| `Interpreter.Interpreter.OperateFp` | interpret.cc:1985-2098 | A floating-point operation: reserved for odd registers with FR clear, or noted as not implemented, or done. |
| `Interpreter.Interpreter.OperateCache` | interpret.cc:3083-3096 | A CACHE operation on an address translates it and may raise; no other effect. |
| `Interpreter.Interpreter.ToSlot` | interpret.cc:2664-2684 | To the delay slot, with the links that come before it. |
| `Interpreter.Interpreter.ProbeAddress` | interpret.cc:39-74 | The reservation's own lookup: first matching entry or no address. |
| `Interpreter.Interpreter.LinkedLoad` | interpret.cc:2899-2910 | The reservation is made first and lost again if the load raises. |
| `Interpreter.Interpreter.ConditionalStore` | interpret.cc:1045-1088 | The store happens if the line is reserved; the register says so; the reservation ends either way. Only SCD checks its alignment. |
| `Interpreter.Interpreter.CheckLink` | interpret.cc:2186-2213 | A store to the reserved line ends the reservation before it runs. |
| `Interpreter.Interpreter.Execute` | interpret.cc:2215-2914 | Any instruction that is not a branch. |
| `Interpreter.Interpreter.FetchInstr` | interpret.cc:2132-2184 | The fetch, its exceptions, the reserved-instruction check of 64-bit operations and the usable check of coprocessor 1. |
| `Interpreter.Interpreter.RunPlain` | interpret.cc:2132-2215 | One call of the interpreter on such an instruction. |
| `Interpreter.Interpreter.RunDelaySlot` | interpret.cc:304-317 | The slot runs with the flag set; the result says whether it raised. |
| `Interpreter.Interpreter.RunSlotThenGo` | interpret.cc:2681-2682 | The jump is taken unless its slot raised. |
| `Interpreter.Interpreter.LikelyBranch` | interpret.cc:731-864 | A likely branch skips its slot when it is not taken. |
| `Interpreter.Interpreter.PlainBranch` | interpret.cc:731-864 | The other branches always run it, and link after it. |
| `Interpreter.Interpreter.JumpTo` | interpret.cc:2664-2684 | J and JAL, the target in the slot's 256 MB region. |
| `Interpreter.Interpreter.JumpToRegister` | interpret.cc:2303-2321 | JR and JALR, the target read before the slot. |
| `Interpreter.Interpreter.RunInstr` | interpret.cc:2132-2215 | One call of the interpreter is the step that the theorems are about. |
| `UnalignedLaws.LoadLeftRight` | interpret.cc:1257-1390 | For every address, register and memory: LWL at a then LWR at a+3 (LDL and LDR at a+7) load exactly the bytes from a on, whatever the register had. |
| `UnalignedLaws.LoadRightLeft` | interpret.cc:1257-1390 | In the other order too. |
| `UnalignedLaws.StoreLeftRight` | interpret.cc:1202-1256 | SWL then SWR (SDL and SDR) store exactly the register's low bytes at a, and change nothing else. |
| `UnalignedLaws.StoreRightLeft` | interpret.cc:1391-1434 | In the other order too. |
| `UnalignedLaws.StoreThenLoad` | interpret.cc:1202-1434 | A pair of stores then a pair of loads at the same address gives the value back. |
| `UnalignedLaws.LeftBytes` | interpret.cc:1257-1363 | One left load: the bytes from a to the end of its group, then what the register had. |
| `UnalignedLaws.RightBytes` | interpret.cc:1295-1390 | One right load: what the register had, then the bytes from the start of the group to a. |
| `UnalignedLaws.LeftPut` | interpret.cc:1203-1233 | One left store: the register's high bytes from a to the end of the group, and nothing else. |
| `UnalignedLaws.RightPut` | interpret.cc:1234-1256 | One right store: its low bytes from the start of the group to a, and nothing else. |
| `UnalignedLaws.LwlIs` | interpret.cc:1257-1294 | The cases of LWL with their literal masks are one shift and merge. |
| `UnalignedLaws.LwrIs` | interpret.cc:1295-1335 | And of LWR. |
| `UnalignedLaws.LdlIs` | interpret.cc:1336-1363 | And of LDL. |
| `UnalignedLaws.LdrIs` | interpret.cc:1364-1390 | And of LDR. |
| `UnalignedLaws.SwlIs` | interpret.cc:1203-1233 | And of SWL. |
| `UnalignedLaws.SwrIs` | interpret.cc:1234-1256 | And of SWR. |
| `UnalignedLaws.SdlIs` | interpret.cc:1391-1413 | And of SDL. |
| `UnalignedLaws.SdrIs` | interpret.cc:1414-1434 | And of SDR. |
| `PairSteps.LoadPairIsALoad` | interpret.cc:1257-1390 | On the interpreter: the two load instructions, in either order, change nothing but the pc and the register, which gets what one unaligned load of the whole word would give, wherever both ends translate to adjoining physical bytes. |
| `PairSteps.StorePairIsAStore` | interpret.cc:1202-1434 | The two store instructions write what one unaligned store would. |
| `PairSteps.StoredThenLoaded` | interpret.cc:1202-1434 | Four instructions, either order in each pair: the loaded register has the stored register's value. |
| `PairSteps.SegmentReaches` | interpret.cc:531-552 | In one unmapped segment both ends do translate so, so the three above need no further condition there. |
| `RandomRuns.RunsAreSafe` | tests/randgen/gen_mips_test.py:74-229 | In every run of every program the generator can make, whatever the instructions compute and whichever way the branches go, no instruction can fault: memory accesses are aligned and in the buffer, 64-bit operations find KX set, floating point finds CU1 set, multiplications and divisions get sign-extended 32-bit operands, and divisors are not zero. |
| `TestRuns.TestsRunClean` | tests/randgen/gen_mips_test.py:74-229 | The same on the interpreter: a test assembled and loaded in an unmapped segment and entered in kernel mode (by KSU, or by ERL as after reset, or by EXL) with KX and coprocessor 1 on and the mask and the buffer's address in their registers, as the preamble leaves the machine, runs to its end in at most as many calls as it has instructions, and no call raises an exception. |
| `TestImage.EveryTestLoads` | tests/randgen/gen_mips_test.py:212-229 | Every test the generator can make has an encoding in the interpreter's instructions, so there is code to run. |
| `Preamble.PreambleStatusExactly` | tests/randgen/gen_mips_test.py:241-243 | The preamble makes Status one that a test runs with if and only if the test is entered in kernel mode with coprocessor 1 usable. |
| `Preamble.BootStatus` | interpret.cc:167-170 | From the Status of reset with CU1, which the startup code sets, the preamble makes 0x74400084. |
| `Preamble.BootRuns` | interpret.cc:167-170 | That is such a Status: ERL is set, which means kernel mode, and EXL is clear. |
| `Preamble.PreambleMask` | tests/randgen/gen_mips_test.py:245-246 | The two instructions that build the mask give all ones but bit 7. |
| `Preamble.PreambleStarts` | tests/randgen/gen_mips_test.py:241-248 | So what the preamble leaves in Status and in the two registers, whatever Status was in such an entry, is what `TestsRunClean` asks for. |
| `TestRuns.PlainRuns` | tests/randgen/gen_mips_test.py:98-177 | Each instruction of a test that is not a branch runs on the interpreter without an exception and computes what the generator's argument allows. |
| `TestRuns.SlotRuns` | tests/randgen/gen_mips_test.py:180-194 | A branch of a test runs its slot and goes on to its label or past the slot. |
| `RandomRuns.StatusIs` | tests/randgen/gen_mips_test.py:196-210 | During a test Status is as the preamble left it, or KX is clear for the moment. |
| `RandomRuns.RunsEnd` | tests/randgen/gen_mips_test.py:179-194 | Every run takes at most as many steps as the program has instructions. |
| `RandomRuns.RunsGoOn` | tests/randgen/gen_mips_test.py:212-229 | And no run is stuck before the end: each branch has its label. |
| `RandomRuns.RandomTest` | tests/randgen/gen_mips_test.py:279-292 | The script makes such a program, of at least n instructions, for any buffer. |
| `RandomRuns.PhaseStep` | tests/randgen/gen_mips_test.py:118-210 | Each instruction of a unit leads to the next phase of the unit's safety: offset masked, address in the buffer; operands cut to 32 bits, divisor odd; KX off, KX back on. |
| `RandomRuns.LabelAhead` | tests/randgen/gen_mips_test.py:180-195 | A branch's label is past its delay slot and at the start of a unit. |
| `Generator.Gen.constructor` | tests/randgen/gen_mips_test.py:75-79 | An empty program with nothing pending. |
| `Generator.Gen.StartUnit` | tests/randgen/gen_mips_test.py:89-93 | Exactly the labels that are due are handed out and leave the pending list; none is lost. |
| `Generator.Gen.EmitLines` | tests/randgen/gen_mips_test.py:95-96 | The lines are appended, with the labels on the first. |
| `Generator.Gen.EmitUnit` | tests/randgen/gen_mips_test.py:134-135 | Exactly this unit's lines are appended, with the labels on the first: labels stay at unit starts and branches stay forward. |
| `Generator.Gen.AluText` | tests/randgen/gen_mips_test.py:99-116 | Any one ALU instruction, a 64-bit one only if allowed. |
| `Generator.Gen.AluOne` | tests/randgen/gen_mips_test.py:220 | One ALU unit is appended, and the program stays well formed. |
| `Generator.Gen.MulOrDiv` | tests/randgen/gen_mips_test.py:119-135 | A multiply or divide unit likewise. |
| `Generator.Gen.Memory` | tests/randgen/gen_mips_test.py:138-156 | A memory unit likewise. |
| `Generator.Gen.Fp` | tests/randgen/gen_mips_test.py:162-177 | A floating-point unit likewise. |
| `Generator.Gen.Branch` | tests/randgen/gen_mips_test.py:180-194 | A branch unit likewise: its label is the next number, and it alone becomes pending, from 0 to 5 places after the slot. |
| `Generator.Gen.Hazard` | tests/randgen/gen_mips_test.py:200-210 | A mode-hazard unit likewise. |
| `Generator.Gen.OneUnit` | tests/randgen/gen_mips_test.py:213-225 | A unit of one of the six kinds; near the end no branch. |
| `Generator.Gen.Generate` | tests/randgen/gen_mips_test.py:212-229 | At least n instructions, cut into units, every branch with one label at a later unit start; no branch unit begins in the last 7 places of the n, and the extra nop comes only last. |
| `AdderGenerators.PrefixAdds` | gen_ppa.py:6-56 | For every width 2^k and all operands: the generated netlist declares each wire once and before its use, and its outputs are the sum modulo 2^(2^k). |
| `AdderGenerators.RippleAdds` | gen_rca.py:6-23 | The ripple-carry netlist of any width likewise. |
| `AdderGenerators.SameAdder` | gen_ppa.py:6-56 | The two netlists of a width are equivalent on all inputs. |
| `AdderGenerators.LevelsCarryGroups` | gen_ppa.py:29-46 | After l levels position i has the propagate and generate of the group of min(i+1, 2^l) bits that ends at it. |
| `AdderGenerators.NetworkSound` | gen_ppa.py:29-46 | At every level the wire names are new and those they use are declared. |
| `AdderGenerators.WriteLevel` | gen_ppa.py:33-46 | The loop over the positions of a level writes that level, and leaves the names for the next. |
| `AdderGenerators.WritePrefix` | gen_ppa.py:14-52 | The generator writes exactly the netlist that adds. |
| `AdderGenerators.WriteSums` | gen_ppa.py:48-52 | The outputs are taken from the saved first-level propagates and the last-level generates. |
| `AdderGenerators.WriteRipple` | gen_rca.py:14-20 | The ripple generator likewise. |
| `Adders.SumBit` | gen_rca.py:14-20 | Each bit of a sum is the exclusive or of the two bits and the carry out of the bits below. |
| `Division.DivMod` | hello/arith64.c:149-189 | Unsigned division: quotient and remainder for all operands, a trap for divisor zero. |
| `Division.LongDivision` | hello/arith64.c:175-189 | The bit loop ends with the quotient and the remainder. |
| `Division.DivideTurn` | hello/arith64.c:182-185 | One turn of the loop preserves the relation between dividend, quotient so far, remainder and digits to come. |
| `Division.DivideBit` | hello/arith64.c:182-185 | The turn's word arithmetic: the sign trick decides the comparison and nothing overflows. |
| `Division.BitsAre` | hello/arith64.c:176 | The number of quotient bits is 1 to 63, enough for the dividend, and 1 for a divisor with its top bit set. |
| `Division.Clz` | hello/arith64.c:112-121 | The branch-free count is the number of leading zeros of any word that is not zero. |
| `Division.SignDecides` | hello/arith64.c:184 | In the loop, where the remainder is below twice the divisor and a divisor with its top bit set is at most the remainder, the sign of b - rem - 1 says whether b > rem. |
| `Division.SignDecidesExactly` | hello/arith64.c:184 | And for all words exactly when the two are less than 2^63 apart (or b is larger by at most 2^63). |
| `Division.Divide` | hello/arith64.c:192-196 | Signed division truncates toward zero, modulo 2^64, and traps for divisor zero. |
| `Division.Modulo` | hello/arith64.c:225-230 | The signed remainder likewise. |
| `Division.TruncatedLaws` | hello/arith64.c:225-230 | Quotient and remainder belong together; the remainder is smaller than the divisor and has the dividend's sign. |
| `Division.ExactUnlessOverflow` | hello/arith64.c:192-196 | The signed quotient is exact if and only if the operands are not the most negative number and -1. |
| `Division.RemainderFits` | hello/arith64.c:225-230 | The signed remainder is always exact. |
| `BitVector.BitVec.constructor` | sim_bitvec.hh:22-29 | n bits, all clear. |
| `BitVector.BitVec.Get` | sim_bitvec.hh:78-82 | The bit at the index. |
| `BitVector.BitVec.Set` | sim_bitvec.hh:101-111 | Exactly this bit is set; an index past the end ends the program and changes nothing. |
| `BitVector.BitVec.Clear` | sim_bitvec.hh:112-117 | Exactly this bit is cleared. |
| `BitVector.BitVec.FindFirstUnset` | sim_bitvec.hh:165-180 | The least clear bit, or -1 if there is none, also with a partial last word. |
| `BitVector.BitVec.FindFirstSet` | sim_bitvec.hh:181-189 | The least set bit, or -1. |
| `BitVector.BitVec.FindNextSet` | sim_bitvec.hh:191-212 | For every signed index: the least set bit after it, or -1, when the search starts in a word of the array; else the flag says that the program reads outside it. |
| `BitVector.BitVec.FindFirstUnsetRoundRobin` | sim_bitvec.hh:133-141 | The last bit if it is clear, else the least clear bit, or -1. |
| `BitVector.BitVec.FindFirstUnsetPair` | sim_bitvec.hh:142-164 | The least even position that is clear together with the next one where there is a next, or -1. |
| `BitVector.BitVec.PairInThisWord` | sim_bitvec.hh:149-161 | The search within a word, from its lowest clear bit on, misses no pair. |
| `BitVector.BitVec.Popcount` | sim_bitvec.hh:118-129 | The number of set bits, when whole words are used; else the program ends. |
| `BitVector.BitVec.Equals` | sim_bitvec.hh:86-97 | Equal if and only if the lengths and all bits are. |
| `BitVector.PairsInsideExactlyEven` | sim_bitvec.hh:142-164 | The pair found lies inside the vector for all contents if and only if the length is even. |
| `BitVector.NextSearchExactly` | sim_bitvec.hh:191-196 | For an index in use, or -1, the search starts in a word of the array if and only if the index is not the last of a vector of whole words. |
| `BitVector.SearchAfterTheLast` | sim_bitvec.hh:191-196 | The failing input: in a vector of k whole words the search after the last bit starts in word k. |
| `BitVector.SameWords` | sim_bitvec.hh:86-97 | Vectors of one length have the same bits if and only if they have the same words, as the spare bits stay zero. |
| `BitVector.CountPrefix` | sim_bitvec.hh:124-126 | The loop's count is the number of set bits so far. |
| `Words.Mod` | helper.hh:55-60 | The masking remainder is the remainder; a divisor of zero gives the dividend back. |
| `Words.MaskIsRemainder` | helper.hh:31-57 | Whenever the power-of-two test accepts the divisor, masking with it less one is the remainder. |

## Left out

- Presence.PresenceRefines: asks for same-step responses, no L1I or no presence bits, because it is false otherwise; `OnlySavesExactlyStrict` proves that the condition is exact.
- PresenceLimits.PresenceRefinesTaken: up to the ghost set of unsynchronised addresses, which changes only what the checks of fetches look at; `StepAlike` proves that it influences no step.
- QueuedReduces.QueuedReachable: likewise up to that ghost set, because an I-sync before a waiting store response and one after it leave different sets.
- Progress.EveryTransactionEnds: counts the steps of the L2 and of those it waits for; that they are taken at all is left to the scheduler, as in the Murphi model.
- Precise.NestedExceptionsKeepEpc: for handlers that do not move a new value into Status, EPC or Cause.BD and do not return before the end.
- Reservation.LoadLinkedStoreCond: for 32-bit addresses and TLB entries, and floating-point stores within a line; otherwise the reservation's lookup is another comparison than translation's, see Findings.
- PairSteps.LoadPairIsALoad: the loads' base is not their destination, since the second load would use a changed base.
- Interpreter.Interpreter.Execute: of the floating-point control registers there is one; FCCR and the others, which are views of it or stored only, are not separate.
- Interpreter.Interpreter.RunInstr: decoding, WAIT, SYSCALL and BREAK outside operating-system mode, monitor calls, interrupts (`raise_int`), a branch in a delay slot, instruction counts and the debugging output are not modelled.
- TestRuns.TestsRunClean: the code is fixed, so a store cannot change it; the generator's buffer is apart from it. Of the preamble, what it makes of Status and the mask that it builds are proved in `Preamble`; that these and the buffer's address are in their places at the start is a condition, and the other registers hold any values.
- Generator.Gen.Generate: how likely each choice is, and that every one can come; a choice is any value in its range.
- Division.DivMod: a null remainder pointer, which only suppresses a store.
- The `BUG_` knobs of the protocol, and the text substitutions that generate its other files from it.
- The L1I of `L1I_TAGONLY`, which drops the L1I's data, and `CHECK_RULES`, which drops rules that change nothing.
- MIPS IV, what floating-point arithmetic computes, and the instruction histograms of the interpreter.
- The text of the generated assembly: preamble, register initialisation, epilogue.
- The shifts, trailing-zero counts, population counts and absolute values of arith64.c.
- The bit vector's hash, copy, resize and shift, and vectors of more than 2^64 - 64 bits.
- The text of the generated Verilog; a netlist is its wires and outputs.
- The RTL, the test bench and the simulator's other data structures.
