# Verification of the Civilization static recompilation

A Dafny model of the parts of this repository whose correctness is easiest to lose and hardest to see: the offline
control-flow closure, the clock, DMA and interrupt machine it runs on, and five smaller algorithms. `dafny verify
dfyconfig.toml` checks all of it.

| file | what it models |
|---|---|
| ClosureModel, ClosureWorklist | the transfer rules of the offline analysis, and its worklist as a class |
| ClosureBounds | when that search is finite |
| ClosureSoundness, ClosureExactness, ClosureLimits | the concrete machine with one stack, soundness of the closure, the transfer rule step by step from above, and where it stops short |
| ReturnTargets | the run-time check of return addresses |
| Clock, ClockEvents, TimerLaws | one master clock: beam, refresh, timer IRQ, NMI edge, HDMA schedule |
| HdmaTable, HdmaService, HdmaFrame, HdmaSchedule | channel 2: the table, the cost of a service, a frame of services, and the beam that drives them |
| MachineBus, MachineDma, MachineCpu | the machine as a value: bus, transfers, arbitration, cycles, interrupts, runs |
| DmaTransfer, MachineCycle, MachineRuns, HdmaRuns | cost, deadlines and invariants of transfers, cycles and whole runs |
| DmaUpload, DmaCopies, DmaCost | block copies through DMA, byte by byte, and what transfers cost |
| MachineInterrupts, InterruptLaws, BusLaws | interrupt round trips, which interrupt is taken, and the laws of the bus and its registers |
| PpuPorts, Console | the picture unit's ports and the machine as classes updated in place |
| RomMapping, CartridgeMap, RomChecksum, ChecksumWord | cartridge mirroring, the HiROM map, the header checksum |
| Joypad, Widescreen, Sprites, SpritePicture, Resampler, ResamplerLaws | controller ports, the widescreen input rebase, a sprite line, the speaker path |
| Options | a value that may be missing |

The machine is given twice. `Console.Core` has the program's fields and loops and updates them in place; each of its
methods is proved equal to a function on values, and the theorems are about those functions. A run is any sequence of
code, data and internal cycles, bus reads and writes, register changes, interrupt acceptances and returns, from reset.
`Tally`, `Pace` and `Nmi.raises` are counts that the program does not keep: the theorems about runs speak of them, and
no branch of the machine looks at them. A theorem about one operation has the proviso that the operation does not fail;
`InitCompletes`, `LineCompletes`, `UploadCompletes` and `InterruptCompletes` say when it cannot.

## What the proofs turned up

- **ROR and carry.** The analysis does not treat ROR as changing carry (line 86). On a processor whose ROR writes
  carry a frontier-free result can miss reachable contexts: `ClosureLimits.RorEscapes`.
- **RTS and the bank.** The analysis resumes an RTS in the caller's bank; the processor keeps PBR.
  `ClosureLimits.RtsEscapes` shows a frontier-free result missing a context.
- **When the result is right for that processor.** `HardwareExact` gives the exact condition on a closed table, ROR by
  ROR and RTS by RTS, and the soundness theorem asks for that condition only. It suffices; it is not necessary of the
  result itself, since a wider table may have it (`SoundThroughWider`, `RorHarmless`). The two escapes show only that
  some condition is needed. The script accepts a single image (line 149), and whether its result has the condition can
  be read off that result. Under the analysis's own reading of both instructions nothing is asked.
- **Termination.** For a program of the 24-bit space the search is finite exactly when PHP nesting is bounded; a PHP in
  a loop has no bound.
- **Checksum.** The script's comment speaks of recursive mirroring, but the code multiplies the tail. The two agree for
  all images of a size exactly when the tail divides the power of two below it, as it does for the supported image.
  Modulo 65536 they can agree otherwise only for images above eight gigabytes (`WordExact`, `SmallImages`).
- **Resampler.** A call whose queue alone fills the caller's buffer returns before reading its input, which is lost:
  `InputLost`, with the exact condition in `NothingLost`. With the staging sizes of the audio output the queue is
  always empty, so this cannot happen there.

## Model

| member | source | states |
|---|---|---|
| ClosureSoundness.PushdownSoundness | tools/scpu/analyze_v33_fixedpoint.py:192-303 | If the table is closed, has no frontier and follows the processor, no run of the concrete machine (one stack of PHP bytes, return frames and interrupt frames; interrupts at any native instruction boundary) ever breaks, so every PLP pops a byte its own activation pushed and every RTS, RTL and RTI a frame of its own kind, and every configuration it visits has an emitted runtime key |
| ClosureSoundness.HardwareExact | tools/scpu/analyze_v33_fixedpoint.py:69-96 | A closed table follows the processor (whatever registers fit an analysed ROR or returning RTS, what they become fits an analysed state of the same activation or of its caller) exactly when the stated condition holds of it: for each ROR it holds the fall-through state with carry unknown or with each carry, and for each RTS and each of its callers the resumption in the bank of the RTS |
| ClosureSoundness.PlainSuffices | tools/scpu/analyze_v33_fixedpoint.py:86-87 | No ROR analysed with a known carry, and every RTS in the bank of each of its targets, suffice for that condition and for the return-target sets |
| ClosureSoundness.SoundThroughWider | tools/scpu/analyze_v33_fixedpoint.py:192-303 | The condition is not necessary of the result itself: any wider closed table that has it, and has no other contexts, makes the result sound |
| ClosureSoundness.ReturnEdge | tools/scpu/analyze_v33_fixedpoint.py:320-330 | Every return edge any run takes is a return site of that instruction, in the bank the processor returns to |
| ClosureSoundness.ReturnAuthority | tools/scpu/analyze_v33_fixedpoint.py:320-330 | If the return-target sets hold the targets the processor makes of them, every return edge any run takes is in the set of its instruction |
| ClosureSoundness.StepPreserves | tools/scpu/analyze_v33_fixedpoint.py:214-303 | One step, instruction or interrupt, from a represented configuration is not broken and leads to a represented configuration |
| ClosureSoundness.StatusFits | tools/scpu/analyze_v33_fixedpoint.py:69-96 | The abstract E, M, X and carry after an instruction still describe every concrete status the instruction can leave; for a ROR that writes carry only if the carry was unknown or is the one written |
| ClosureSoundness.PlpPreserves | tools/scpu/analyze_v33_fixedpoint.py:90-95 | A PLP whose local stack is not empty restores the widths and carry that the analysis restores, from the byte on top of the real stack |
| ClosureSoundness.PhpPreserves | tools/scpu/analyze_v33_fixedpoint.py:88-89 | A PHP keeps the real stack split into the local bytes, the own frame and the caller |
| ClosureSoundness.RorPreserves | tools/scpu/analyze_v33_fixedpoint.py:86-87 | A ROR that writes either carry stays inside a table that answers for both |
| ClosureSoundness.CallPreserves | tools/scpu/analyze_v33_fixedpoint.py:192-201 | A call enters the callee with its own return frame on the stack and a registered continuation under it |
| ClosureSoundness.ReturnPreserves | tools/scpu/analyze_v33_fixedpoint.py:203-212 | A return pops a frame of its own kind and resumes a state the table holds for that continuation and exit status |
| ClosureSoundness.RtiPreserves | tools/scpu/analyze_v33_fixedpoint.py:291-293 | An RTI pops an interrupt frame and resumes the interrupted state, which the table holds |
| ClosureSoundness.IndirectPreserves | tools/scpu/analyze_v33_fixedpoint.py:253-268 | An indirect jump or call goes to a proved target only, and that target is in the table |
| ClosureSoundness.HandlerPreserves | tools/scpu/analyze_v33_fixedpoint.py:182-190 | An NMI or IRQ at any native instruction boundary enters a seeded handler state of the right widths |
| ClosureSoundness.BreakPreserves | tools/scpu/analyze_v33_fixedpoint.py:294-299 | BRK and COP enter a seeded handler state, and the state behind them is in the table |
| ClosureSoundness.RunRepresented | tools/scpu/analyze_v33_fixedpoint.py:214-303 | Every configuration of every run from reset is represented in the table |
| ClosureExactness.NextExact | tools/scpu/analyze_v33_fixedpoint.py:219-303 | The rule from above: every successor inside a procedure is one step away; each of its concrete registers, over its local PHP bytes, is what the instruction leaves of some registers of the state it comes from |
| ClosureExactness.CallExact | tools/scpu/analyze_v33_fixedpoint.py:192-201 | Every call of the rule is one step away: the callee's entry, over the return frame of the continuation |
| ClosureExactness.ExitExact | tools/scpu/analyze_v33_fixedpoint.py:203-212 | Every exit is one step away from each continuation, which it resumes with the exit's status and without the return frame |
| ClosureExactness.BreakExact | tools/scpu/analyze_v33_fixedpoint.py:294-299 | BRK and COP add exactly the handler in every width and the state that the pushed context resumes |
| ClosureExactness.FaultExact | tools/scpu/analyze_v33_fixedpoint.py:219-292 | A frontier is exactly where the machine breaks, over any stack a table explains, or where XCE meets an unknown carry |
| ClosureExactness.SeedsExact | tools/scpu/analyze_v33_fixedpoint.py:180-190 | A seed is the reset state, or what an NMI or IRQ enters from native registers, or the BRK handler |
| ClosureExactness.SiteExact | tools/scpu/analyze_v33_fixedpoint.py:320-330 | Every return site is a return the machine makes, from the instruction over a frame of its kind to the target |
| ClosureExactness.FlagBits | tools/scpu/analyze_v33_fixedpoint.py:73-80 | REP and SEP act on bit 0 for carry, bit 4 for the index width and bit 5 for the accumulator width |
| ClosureWorklist.Analyzer.RunWithin | tools/scpu/analyze_v33_fixedpoint.py:158-303 | For every program of the 24-bit space and every depth the loop stops: either with a derived state that has more PHP bytes open in its procedure than the depth, or with the complete result; and it is complete exactly when no derived state nests deeper |
| ClosureWorklist.Analyzer.Run | tools/scpu/analyze_v33_fixedpoint.py:158-303 | With bounded PHP nesting the loop terminates, by the measure (states of the universe of that depth not yet served, queue length); its result is the least closed table, it reports no frontier exactly when the table has none, and the emitted contexts are exactly the runtime keys of served states that decode |
| ClosureBounds.FiniteExactly | tools/scpu/analyze_v33_fixedpoint.py:158-303 | A program of the 24-bit space has a finite closed table, so a search that can finish, exactly when its PHP nesting is bounded |
| ClosureBounds.SpaceCloses | tools/scpu/w65c816.py:139-186 | Sixteen-bit vectors, operands and proved targets keep every state, call and exit inside the 24-bit space |
| ClosureBounds.StacksExact | tools/scpu/analyze_v33_fixedpoint.py:88-95 | The finite universe of a depth holds exactly the PHP stacks up to that depth |
| ClosureBounds.NestingInvariant | tools/scpu/analyze_v33_fixedpoint.py:88-95 | Nesting is bounded exactly when some closed relation, finite or not, has only states within the bound |
| ClosureBounds.CallsNestWithin | tools/scpu/analyze_v33_fixedpoint.py:192-201 | A derived call keeps the PHP bytes of its caller and so nests no deeper |
| ClosureBounds.WithoutPhp | tools/scpu/analyze_v33_fixedpoint.py:88-89 | A program without PHP never nests, so its analysis terminates |
| ClosureWorklist.LeastIsUnique | tools/scpu/analyze_v33_fixedpoint.py:167-303 | The table that is least among all closed relations, infinite ones included, is unique, so no order of service and no order of discovering callers and exits can change the result |
| ClosureWorklist.Analyzer.RegisterCall | tools/scpu/analyze_v33_fixedpoint.py:192-201 | A new caller sees every exit its callee has already shown, and nothing is found that closure does not force |
| ClosureWorklist.Analyzer.PropagateExit | tools/scpu/analyze_v33_fixedpoint.py:203-212 | A new exit reaches every caller registered so far, and nothing is found that closure does not force |
| ClosureWorklist.Analyzer.AddExit | tools/scpu/analyze_v33_fixedpoint.py:203-212 | A return with local PHP bytes left is a frontier; a known exit changes nothing; a new one is propagated |
| ClosureWorklist.Analyzer.Enqueue | tools/scpu/analyze_v33_fixedpoint.py:167-170 | Afterwards the state counts as found, and the queue holds each unserved found state once |
| ClosureWorklist.Analyzer.Service | tools/scpu/analyze_v33_fixedpoint.py:219-303 | The service of one state adds what its transfer rule gives, the summaries that follow from it, and at most one frontier |
| ClosureWorklist.Analyzer.ServiceFlow | tools/scpu/analyze_v33_fixedpoint.py:251-260 | Jumps, branches, BRK, COP, RTI, STP and fall-through add exactly the successor states of the rule |
| ClosureWorklist.Analyzer.ServiceCall | tools/scpu/analyze_v33_fixedpoint.py:261-270 | Calls register exactly the calls of the rule, over every proved indirect target |
| ClosureWorklist.Analyzer.ServiceReturn | tools/scpu/analyze_v33_fixedpoint.py:271-290 | RTS and RTL in a procedure of their kind add its exit; in any other they are frontiers |
| ClosureWorklist.Analyzer.Turn | tools/scpu/analyze_v33_fixedpoint.py:214-219 | One turn keeps all four invariants of the loop and serves exactly one more state |
| ClosureWorklist.Analyzer.SeedAll | tools/scpu/analyze_v33_fixedpoint.py:180-190 | The seeds are reset in emulation mode and the three vectors in all four native widths |
| ClosureWorklist.ProgressStep | tools/scpu/analyze_v33_fixedpoint.py:214-303 | Serving a found state keeps the found table inside every closed table and closed for what has been served |
| ClosureLimits.PhpLoopHasNoClosedTable | tools/scpu/analyze_v33_fixedpoint.py:88-89 | A PHP in a loop has no finite closed table, so the worklist does not stop on such a program |
| ClosureLimits.PhpLoopNestsWithoutBound | tools/scpu/analyze_v33_fixedpoint.py:88-89 | Its nesting has no bound, so at every depth the cut-off search finds a deeper state |
| ClosureLimits.RorEscapes | tools/scpu/analyze_v33_fixedpoint.py:86-87 | CLC; ROR; XCE: the finished, frontier-free analysis misses a context that a processor whose ROR writes carry reaches, because ROR is not in the list of carry-clobbering instructions; so some condition is needed |
| ClosureLimits.RorHarmless | tools/scpu/analyze_v33_fixedpoint.py:86-87 | CLC; ROR; STP: the result does not have the condition, yet no run escapes it |
| ClosureLimits.RtsEscapes | tools/scpu/analyze_v33_fixedpoint.py:271-284 | JSR, JML to another bank, RTS: the finished, frontier-free analysis misses the context that a processor whose RTS keeps PBR reaches |
| ReturnTargets.ReturnAllowed | static-recomp/generated/civilization_generated_returns.c:3117-3122 | The search accepts a target exactly when the proof identifier is in range and the target is in its slice |
| ReturnTargets.ReturnsAreAllowed | static-recomp/generated/civilization_generated_returns.c:3117-3122 | Over the slices the analysis gives, the run-time check accepts every return any run performs |
| ReturnTargets.AllowedIsSite | static-recomp/generated/civilization_generated_returns.c:3117-3122 | And it accepts nothing else: an address is in the slice of an instruction exactly when it is one of its return sites |
| Clock.ClockIsPosition | static-recomp/src/civilization_scheduler.c:5-8 | Every master clock is exactly one place (frame, line, dot) on the screen and every place occurs at exactly one clock; short line 240 of odd fields included |
| Clock.TickBeamOk | static-recomp/src/civilization_scheduler.c:19-46 | A raw clock keeps the beam in closed form: its clock, field parity, refresh dot, init dot and refresh count |
| Clock.SettleOk | static-recomp/src/civilization_scheduler.c:82-97 | A refresh starts at clock 2 modulo 8, between dots 531 and 538, and stalls exactly forty clocks of the same line |
| Clock.AdvanceLedger | static-recomp/src/civilization_scheduler.c:82-98 | Advancing by n costs n clocks and forty for each refresh met, and refreshes stay one per line |
| ClockEvents.NearAdvance | static-recomp/src/civilization_scheduler.c:54-62 | Within 250 clocks of a scheduled event no further event is raised and no refresh falls due |
| ClockEvents.FarAdvance | static-recomp/src/civilization_scheduler.c:54-62 | With nothing pending, advancing raises at most one HDMA request, arms the start delay with it, and never fails; the request is no older than the clocks advanced |
| ClockEvents.WaitingAdvance | static-recomp/src/civilization_scheduler.c:54-62 | A pending request, known by the dot of its own line at which it was raised, ages by exactly the clocks that pass |
| ClockEvents.PaceAdvance | static-recomp/src/civilization_scheduler.c:54-62 | An undisturbed frame in progress was one before any number of clocks, with as many lines taken |
| ClockEvents.EdgeRaised | static-recomp/src/civilization_scheduler.c:63-76 | The NMI edge is raised at dot 6 of the NMI line, exactly if the guest has enabled it, and is then about to be sampled |
| TimerLaws.IrqCrossed | static-recomp/src/civilization_scheduler.c:77-80 | Along a line the timer IRQ rises exactly when the programmed dot is crossed, on the programmed line if one is programmed, and counts once |
| TimerLaws.IrqAtLineStart | static-recomp/src/civilization_scheduler.c:52 | With the vertical match alone it rises exactly at the start of the programmed line |
| TimerLaws.IrqHeld | static-recomp/src/civilization_scheduler.c:15-24 | Once up it is held for four clocks and stays up until it is read |
| TimerLaws.FlagMoves | static-recomp/src/civilization_scheduler.c:63-76 | The NMI flag goes up at dot 2 of line 225 or 240, with the joypad poll, and down at dot 2 of line 0 |
| TimerLaws.InitRaised | static-recomp/src/civilization_scheduler.c:54-62 | Every frame after the first raises its initialisation at the init dot, and it starts undisturbed exactly if HDMA is on |
| TimerLaws.TransferRaised | static-recomp/src/civilization_scheduler.c:54-62 | With HDMA on every visible line raises its transfer at dot 1104 and leaves the frame undisturbed |
| ClockEvents.AdvanceKeepsEdge | static-recomp/src/civilization_scheduler.c:63-98 | No number of clocks takes a raised edge away or delays one that is about to be sampled |
| HdmaTable.TableRefined | static-recomp/src/civilization_dma.c:170-273 | For any table the line-by-line channel is the table: it transfers on exactly the lines the table says, from the pointers the table says, and stops exactly where the table stops |
| HdmaTable.DescriptorLines | static-recomp/src/civilization_dma.c:232-267 | A descriptor above $80 transfers on each of its lines, another only on its first; $80 lasts 128 lines |
| HdmaTable.LineStands | static-recomp/src/civilization_dma.c:243-267 | One line moves the cursor to the next line of its descriptor, or loads the next descriptor after its last |
| HdmaFrame.LineService | static-recomp/src/civilization_dma.c:215-273 | The service of line n moves the machine's cursor to line n + 1 of the table and leaves the horizontal scroll of layer 1 at the word pointed to, modulo 1024, whatever the latches held; other lines leave the picture unit alone |
| HdmaFrame.InitLoads | static-recomp/src/civilization_dma.c:170-208 | The frame initialisation puts the cursor before line 0 of the table at C1:4AE3 and touches no memory |
| HdmaFrame.FrameFollowsTable | static-recomp/src/civilization_dma.c:170-273 | For any sequence of one service a line, nested in manual transfers or not and with any guest activity between, every line starts with the cursor where the table puts it; that the frames of a run are such sequences is LineInTurn |
| HdmaSchedule.LineServed | static-recomp/src/civilization_dma.c:215-273 | In an undisturbed frame the service of visible line v is the v-th after the initialisation, completes, moves the cursor to line v + 1 of the table, and leaves the scroll at the word the table gives for line v |
| HdmaSchedule.ServeFollows | static-recomp/src/civilization_dma.c:287-311 | A service of either kind, nested or not, keeps the cursor at the place in the table that the lines served so far give |
| HdmaSchedule.LineAdvances | static-recomp/src/civilization_dma.c:232-267 | A line moves the cursor to the next line whatever its pointer points at, ports included |
| HdmaSchedule.ServeCompletes | static-recomp/src/civilization_dma.c:287-311 | While HDMA is off, or follows a table whose words lie in plain memory, a service completes and the next one will too |
| HdmaFrame.InitCompletes | static-recomp/src/civilization_dma.c:170-208 | An armed initialisation never fails |
| HdmaFrame.LineCompletes | static-recomp/src/civilization_dma.c:215-273 | An armed line whose words lie in plain memory never fails, so its service holds without a proviso |
| PpuPorts.ScrollWord | static-recomp/src/civilization_ppu_io.c:111-116 | Two writes to a horizontal scroll register leave the word written modulo 1024 whatever both latches held |
| HdmaService.InitServed | static-recomp/src/civilization_dma.c:170-208 | An initialisation takes whole CPU cycles (or, nested, whole eights) of at most 68 clocks, plus forty per refresh, raises nothing, and touches only its cursor |
| HdmaService.ScanlineServed | static-recomp/src/civilization_dma.c:215-273 | A scanline service takes whole CPU cycles (or, nested, whole eights) of at most 68 clocks, plus forty per refresh, raises nothing, and touches only its cursor and the scroll registers |
| HdmaService.FinishServed | static-recomp/src/civilization_dma.c:145-168 | The end synchronisation rounds the clocks spent up to a whole number of cycles of the interrupted speed |
| DmaTransfer.CheckpointOk | static-recomp/src/civilization_dma.c:287-311 | A checkpoint serves or releases whatever is pending without failing the scheduler, in whole eights, and leaves every picture memory alone |
| DmaTransfer.MovedOk | static-recomp/src/civilization_dma.c:64-83 | Any number of bytes with any HDMA between them takes at least eight clocks a byte, in whole eights, and never fails the scheduler |
| DmaTransfer.BytesAligned | static-recomp/src/civilization_dma.c:64-83 | Bytes that start on an eight-clock boundary stay on one |
| DmaUpload.BytesOnBoundary | static-recomp/src/civilization_dma.c:346-376 | Every byte of every manual transfer moves at a master clock that is a multiple of eight |
| MachineCycle.StartupOk | static-recomp/src/civilization_dma.c:361-376 | The start synchronisation and the two overheads end on an eight-clock boundary after at least 17 clocks, whatever HDMA ran at the checkpoints |
| MachineCycle.RunDmaOk | static-recomp/src/civilization_dma.c:346-383 | A manual transfer of any length with any HDMA nested in it takes its reported clocks plus forty per refresh, and those are a positive whole number of cycles of the interrupted speed; memory and processor are untouched |
| MachineCycle.ArbitrateOk | static-recomp/src/civilization_dma.c:385-411 | Arbitration grants at most one transfer; it takes whole cycles, none unless it reports the interrupt lock, and what stays pending is still within its deadline |
| MachineCycle.CycleOk | static-recomp/src/civilization_cpu_timing.c:70-92 | A CPU cycle costs its own speed, a whole number of further cycles for DMA, and forty per refresh, and keeps the deadline invariant |
| DmaCopies.OamCopy | static-recomp/src/civilization_ppu_io.c:64-84 | 544 bytes to $2104 from address zero: byte k of the sprite table is the plain byte k above the source address, k below it, or at it, by bits 3 and 4 of DMAP, whatever HDMA runs in between |
| DmaCopies.CgramCopy | static-recomp/src/civilization_ppu_io.c:226-238 | 512 bytes to $2122: colour address + j, wrapping, is pair j of the source in the same sense, without its top bit |
| DmaCopies.VramCopy | static-recomp/src/civilization_ppu_io.c:213-222 | 2k bytes in mode 1 with VMAIN $80: word address + j of video memory, wrapping, is pair j of the source in the same sense |
| DmaCopies.OffsetsListed | static-recomp/src/civilization_dma.c:28-31 | The eight patterns in which a transfer spreads its bytes over neighbouring registers |
| DmaCost.TransferCost | static-recomp/src/civilization_dma.c:346-383 | With HDMA off n bytes cost the clocks to a multiple of eight, sixteen, and eight each, rounded up to the interrupted speed; size 0 is 65536 bytes |
| DmaCost.ChannelLeft | static-recomp/src/civilization_dma.c:64-84 | A transfer leaves its channel behind the last byte with size 0, and the other channels alone |
| DmaCost.ModesRefused | static-recomp/src/civilization_dma.c:39-48 | A transfer to the A bus and every mode but 0 to 2 on the first two channels and 1 on the last are refused |
| DmaCost.ScanlineCost | static-recomp/src/civilization_dma.c:215-273 | A line of HDMA costs eight clocks, sixteen if it transfers, eight for the counter, and the next descriptor where this one ends, with synchronisation outside a manual transfer |
| DmaCost.InitCost | static-recomp/src/civilization_dma.c:170-208 | An initialisation costs eight clocks and the first descriptor, likewise |
| DmaUpload.UploadCompletes | static-recomp/src/civilization_dma.c:346-383 | An upload to sprites, colours or tiles from plain memory never fails, with HDMA off or following a plain table between its bytes, so the three block copies then hold without a proviso |
| PpuPorts.OamUpload | static-recomp/src/civilization_ppu_io.c:64-84 | Writing 544 bytes to the sprite port from address zero stores them byte for byte, pairing included |
| PpuPorts.CgramWord | static-recomp/src/civilization_ppu_io.c:226-238 | The j-th pair written to the palette is the j-th entry from the start entry, its high byte without bit 7 |
| PpuPorts.VramWord | static-recomp/src/civilization_ppu_io.c:213-222 | The j-th pair written alternately to the two data ports is the j-th word from the start address |
| MachineRuns.RequestsServedInTime | static-recomp/src/civilization_dma.c:313-337 | In every run, over any cycles, register writes and transfers of any length, no HDMA event is scheduled while the previous one waits; a pending initialisation is at most 56 clocks past the init dot of line 0, a pending transfer at most 56 clocks past dot 1104 of the visible line that raised it |
| MachineRuns.RequestAge | static-recomp/src/civilization_dma.c:313-337 | One request is never pending at two moments of a run that are more than 56 clocks apart |
| MachineRuns.LineInTurn | static-recomp/src/civilization_dma.c:215-273 | In every run, while HDMA has been on at each event of the frame and the guest has left the pointer alone, a line has been served for each line begun but a pending one, and the cursor stands where the table puts the next line |
| HdmaRuns.LineShown | static-recomp/src/civilization_dma.c:215-273 | In every run the cycle that serves line v of an undisturbed frame leaves the scroll register at the word the table gives for line v and the cursor before the next line, and completes if the channel has its one configuration |
| MachineRuns.ClockLedger | static-recomp/src/civilization_cpu_timing.c:70-92 | In every run the master clock is the speeds of the code cycles, plus those of the data cycles, plus six per internal cycle, plus the transfers' clocks, plus forty per refresh; refreshes are 262 per frame plus the line plus the one of this line; and the clock is the closed form of the beam |
| MachineRuns.NoLostNmi | static-recomp/src/civilization_cpu_timing.c:37-53 | Once an edge is raised, pending or counting holds until an NMI is accepted, through any actions |
| MachineRuns.EdgeLatched | static-recomp/src/civilization_cpu_timing.c:37-53 | Between any two moments of a run, over any actions but a $4200 write that raises an edge anew: an edge about to be sampled stays so while every cycle grants a transfer, and has been latched once one does not; and an edge raised at dot 6 in between is about to be sampled or has been latched |
| MachineRuns.CycleEdge | static-recomp/src/civilization_cpu_timing.c:37-53 | A cycle in which a transfer ran keeps the edge for the next; any other latches it, which leaves it pending |
| MachineRuns.InterruptsNeverNest | static-recomp/src/civilization_cpu_support.c:69-140 | In every run at most one interrupt is being handled and each depth is accepts minus returns |
| MachineRuns.EveryRun | static-recomp/src/civilization_runtime.c:33-62 | Every reachable state that has not failed has all invariants; and none fails in the HDMA scheduler |
| MachineRuns.RunFrom | static-recomp/src/civilization_runtime.c:53-57 | The invariants are kept from any state that has them |
| MachineRuns.ActProgress | static-recomp/src/civilization_runtime.c:53-57 | Each single action of the guest keeps the invariants or fails for a reason other than the scheduler |
| MachineRuns.DmaEnableSteady | static-recomp/src/civilization_bus.c:271-281 | An MDMAEN write keeps the deadline invariant: it can delay a pending request once, since a second is refused while the first waits |
| MachineRuns.EnableSteady | static-recomp/src/civilization_bus.c:250-262 | A write to $4200 keeps the invariants and a raised edge |
| MachineRuns.HdmaEnableSteady | static-recomp/src/civilization_bus.c:223-228 | A write to $420C keeps the invariants; only $00 and $04 are accepted |
| MachineInterrupts.NmiRoundTrip | static-recomp/src/civilization_cpu_support.c:96-140 | Entry runs the handler the image names at $FFEA; for any frame in bank-0 work RAM and any handler that leaves frame, stack pointer and mode as it found them, NMI entry then RTI restores PBR, PC, P and S exactly |
| MachineInterrupts.IrqRoundTrip | static-recomp/src/civilization_cpu_support.c:69-140 | The same for IRQ entry, which runs the handler the image names at $FFEE |
| MachineInterrupts.HandlersEntered | static-recomp/src/civilization_cpu_support.c:86-113 | After an entry PC is the little-endian word of the image at $FFEA for NMI and at $FFEE for IRQ, in bank 0 |
| InterruptLaws.AcceptChoice | static-recomp/src/civilization_runtime.c:21-31 | A latched and enabled NMI is taken first, then an unmasked IRQ, neither inside a handler, each through its own vector; otherwise nothing happens |
| InterruptLaws.EntryAccess | static-recomp/src/civilization_cpu_support.c:69-121 | An entry makes seven data accesses and one internal cycle |
| InterruptLaws.ReturnAccess | static-recomp/src/civilization_cpu_support.c:123-140 | A return makes four, and narrows the index registers exactly when the restored P says so |
| InterruptLaws.FreshEdgeWaits | static-recomp/src/civilization_cpu_timing.c:37-80 | An edge raised by a cycle's own clocks is not latched by that cycle |
| InterruptLaws.StackWalk | static-recomp/src/civilization_cpu_support.c:142-158 | A pull undoes the step of a push; the pointer runs through bank 0 in native mode and page 1 in emulation mode |
| BusLaws.SpeedExact | static-recomp/src/civilization_cpu_timing.c:55-68 | Twelve clocks for the serial controller page, six for the other I/O pages and for fast ROM, eight elsewhere |
| BusLaws.WramExact | static-recomp/src/civilization_bus.c:72-78 | Work RAM answers in banks $7E and $7F and at the bottom of the low banks, and nowhere else |
| BusLaws.WramWritten | static-recomp/src/civilization_bus.c:184-194 | A byte written to work RAM is read back, and no other byte of memory changes |
| BusLaws.SaveWritten | static-recomp/src/civilization_cartridge.c:3-28 | A byte written to save RAM is read back from every mirror of it, and no other byte changes |
| BusLaws.WriteRouted | static-recomp/src/civilization_bus.c:218-283 | Each control and picture register acts at its own address |
| BusLaws.ChannelSetUp | static-recomp/src/civilization_bus.c:284-306 | Seven writes set a DMA channel up, low bytes first |
| BusLaws.RegisterReadBack | static-recomp/src/civilization_bus.c:147-173 | What is written to a channel register is read back |
| BusLaws.RegisterWindow | static-recomp/src/civilization_bus.c:147-150 | The readable and writable registers of the four channels |
| BusLaws.HdmaAccepted | static-recomp/src/civilization_bus.c:223-228 | HDMA is accepted on exactly the one configuration |
| BusLaws.DmaStartsLater | static-recomp/src/civilization_bus.c:271-281 | A write to $420B starts nothing in the next cycle and the transfer in the one after |
| BusLaws.LockExactly | static-recomp/src/civilization_dma.c:385-411 | A cycle reports the interrupt lock exactly when it grants a transfer |
| BusLaws.EnableBits | static-recomp/src/civilization_bus.c:250-262 | The four enables of $4200 and their bits |
| BusLaws.EnableRaises | static-recomp/src/civilization_bus.c:250-262 | Enabling NMI while its flag is up raises an edge latched by the second free cycle; no other write touches the edge |
| BusLaws.MatchSetUp | static-recomp/src/civilization_bus.c:263-270 | The two nine-bit match positions |
| BusLaws.FlagReadOnce | static-recomp/src/civilization_bus.c:117-125 | $4210 is read once and then gone, except in the first dots of the NMI line |
| BusLaws.VramSetUp | static-recomp/src/civilization_ppu_io.c:204-222 | $80 to $2115 and an address word give exactly what the tile upload asks for |
| BusLaws.VramSteps | static-recomp/src/civilization_ppu_io.c:204-208 | The step, remapping and stepping byte of $2115 |
| BusLaws.OamSetUp | static-recomp/src/civilization_ppu_io.c:54-63 | $2102 and $2103 name a word of the sprite table, and writing starts at its first byte |
| BusLaws.ScrollSetUp | static-recomp/src/civilization_ppu_io.c:111-134 | Two writes to any of the eight scroll registers set its value and leave the other seven |
| MachineInterrupts.EntryThenReturn | static-recomp/src/civilization_cpu_support.c:96-140 | NMI or IRQ entry followed at once by RTI gives back the context and depth zero, and counts one accept and one return |
| MachineInterrupts.InterruptCompletes | static-recomp/src/civilization_cpu_support.c:69-140 | With no manual transfer armed, and HDMA off or following a plain table, native entry and RTI over work RAM complete for both interrupts, so the round trips hold without a proviso |
| MachineInterrupts.ReturnCompletes | static-recomp/src/civilization_cpu_support.c:123-140 | RTI completes from any native state with a frame in work RAM and exactly one depth |
| MachineInterrupts.FrameStored | static-recomp/src/civilization_cpu_support.c:81-84 | The four pushes store bank, PC and P below the stack pointer and nothing else, with DMA, HDMA and refresh allowed inside any of them |
| MachineInterrupts.ReturnReads | static-recomp/src/civilization_cpu_support.c:132-136 | RTI from a stored frame loads exactly that frame |
| MachineInterrupts.MaskedFlags | static-recomp/src/civilization_cpu_support.c:85 | Entry sets I, clears D and keeps the other flags |
| Console.Core.MasterClocks | static-recomp/src/civilization_scheduler.c:82-98 | The clock loop is the advance the ledger is proved of |
| Console.Core.RefreshStall | static-recomp/src/civilization_scheduler.c:91-97 | The refresh loop is forty raw clocks |
| Console.Core.ScanlineHdma | static-recomp/src/civilization_dma.c:215-273 | The sequence of copies, reads and waits is the line service the table results are proved of |
| Console.Core.MoveBytes | static-recomp/src/civilization_dma.c:64-83 | The byte loop, with its running source address, is the transfer the upload and alignment results are proved of |
| Console.Core.ExecutePending | static-recomp/src/civilization_dma.c:346-383 | From a sound machine with nothing pending a whole manual transfer returns a positive whole number of cycles of the interrupted speed, which with forty per refresh is what the clock moved, and leaves memory and processor alone |
| Console.Core.ProcessCpuCycle | static-recomp/src/civilization_dma.c:385-411 | From a state with the deadline invariant the arbitration takes whole cycles, none unless it reports the interrupt lock, and leaves whatever is pending within its deadline |
| Console.Core.RunCycle | static-recomp/src/civilization_cpu_timing.c:70-80 | The cycle keeps the deadline invariant and moves the clock by its speed, whole cycles of DMA and forty per refresh |
| Console.Core.InternalCycles | static-recomp/src/civilization_cpu_timing.c:82-92 | The loop is the given number of six-clock internal cycles, stopping at a failure |
| Console.Core.RunStatic | static-recomp/src/civilization_runtime.c:33-62 | The loop performs the instructions in order, an interrupt accepted after each, up to the budget, a failure, or the first instruction at whose end the frame is reached; what it does is a run of actions, so every result about runs holds of it |
| RomMapping.MirrorAddress | static-recomp/src/civilization_mapper.c:13-38 | The bit loop terminates for every address and size and computes the recursive mirror, which is below the size and the identity below it |
| RomMapping.MirrorPeriodic | static-recomp/src/civilization_mapper.c:6-38 | The mapping repeats with every power-of-two period that covers the image |
| RomMapping.MirrorTail | static-recomp/src/civilization_mapper.c:6-38 | Between a power of two and its double only the tail of the image is mirrored |
| RomMapping.MirrorPow2 | static-recomp/src/civilization_mapper.c:6-38 | A power-of-two image simply repeats |
| RomChecksum.ChecksumExact | tools/rom/civilization_rom.py:43-50 | The script's total equals the bus total of the mirrored image, for all images of a size, exactly when the tail divides the power of two |
| RomChecksum.ChecksumOfMirror | tools/rom/civilization_rom.py:43-50 | For such sizes the script's checksum is the mirrored bus total modulo 65536 |
| ChecksumWord.WordExact | tools/rom/civilization_rom.py:43-50 | The sixteen-bit checksum itself equals the bus total modulo 65536, for all images of a size, exactly when the tail divides the power or both totals lose the tail in the modulus: the power is at least 131072 times the tail's own top power, and the script's factor is a multiple of 65536 |
| ChecksumWord.SmallImages | tools/rom/civilization_rom.py:43-50 | Below eight gigabytes the second case cannot occur, so there the checksum is right exactly when the tail divides the power |
| ChecksumWord.LargeWrap | tools/rom/civilization_rom.py:43-50 | The second case does occur at 2^51 + 2^17 + 1 bytes |
| ChecksumWord.LastByte | static-recomp/src/civilization_mapper.c:6-38 | The bus shows the last byte of any image a power of two of times, at least once for each mirror of the largest power of two in it |
| RomChecksum.HiRomOffset | static-recomp/src/civilization_mapper.c:40-56 | The C map answers outside the work-RAM banks and the lower halves of the low banks, at the address within the bank modulo 64, mirrored into the image, which is where the Python map answers |
| CartridgeMap.WindowExact | static-recomp/src/civilization_mapper.c:40-56 | Every offset below 4 MiB is shown at its own place from bank $C0 on |
| CartridgeMap.BanksMirror | static-recomp/src/civilization_mapper.c:40-56 | Every bank shows the window's bank of the same number modulo 64 wherever it answers |
| CartridgeMap.ImageShown | static-recomp/src/civilization_cartridge.c:3-13 | Every byte of the image is read at its own place in the window |
| CartridgeMap.MirrorShown | static-recomp/src/civilization_cartridge.c:3-13 | Every bank that answers in its upper half reads the window's byte, mirrored into the image |
| RomChecksum.SramAperture | static-recomp/src/civilization_mapper.c:58-70 | Every save-RAM byte has exactly one address in each group of four banks, and never a ROM one |
| Joypad.SnesMaskToSerial | frontend/windows/civilization_app_core.c:33-40 | The serial word is the host mask reversed |
| Joypad.Ports.FrameInput | static-recomp/src/civilization_input.c:242-258 | For every host mask on a joypad port, $4218/$4219 (or $421A/$421B) read the mask back |
| Joypad.Ports.AutoPoll | static-recomp/src/civilization_input.c:248-258 | The poll leaves a joypad's latched word in register order, or the upper half of a mouse's packet with the lower half still queued; slots 3 and 4 are zero |
| Joypad.PacketValue | static-recomp/src/civilization_input.c:192-204 | The mouse packet as a number: signature, sensitivity and buttons, then each movement with its direction |
| Joypad.ScaledMovement | static-recomp/src/civilization_input.c:183-191 | A scaled movement is the same both ways, zero for none and never more for less |
| Joypad.Ports.SerialRead | static-recomp/src/civilization_input.c:215-228 | A manual read returns the next latched bit and then ones, a strobed one the live first bit; a strobed mouse read returns zero, steps the sensitivity cyclically and rebuilds the packet |
| Widescreen.Cursor.ConnectInput | static-recomp/src/civilization_input.c:92-181 | The nine words stay the original ones plus the committed tiles, plus the present extension only while rebased; extensions stay in range; only directions consumed while held are removed; a rebase needs A or B without Y or SELECT; the extensions move by the horizontal and vertical steps unless L, R or A is held |
| Widescreen.Cursor.Session | static-recomp/src/civilization_input.c:92-181 | Over any sequence of inputs and toggles rebases never accumulate: without commits the words return to what they were |
| Widescreen.Cursor.SetEnabled | static-recomp/src/civilization_machine.c:236-249 | Switching off undoes a rebase and keeps the committed tiles |
| Widescreen.Cursor.Restore | static-recomp/src/civilization_input.c:36-44 | Undoes a rebase exactly |
| Widescreen.MovedTogether | static-recomp/src/civilization_input.c:46-51 | The nine words are three places and three map addresses of 80 tiles a row, and all follow the same step |
| Widescreen.OnWorldExact | static-recomp/src/civilization_input.c:84-90 | The extended row is on the world exactly when its pixel lies within 640 |
| Widescreen.Cursor.Apply | static-recomp/src/civilization_input.c:53-66 | Adds the extension once, and marks it |
| Widescreen.Cursor.Commit | static-recomp/src/civilization_input.c:68-82 | Adds the extension to the committed tiles and clears it |
| Widescreen.Cursor.StepX | static-recomp/src/civilization_input.c:117-147 | The horizontal extension grows only at the native edge, up to 64 pixels, returns without jumping over zero, and stays a multiple of 16 |
| Widescreen.Cursor.StepY | static-recomp/src/civilization_input.c:148-166 | The vertical extension is one row out, only onto the 40-row world, or back |
| Sprites.SpriteLine | static-recomp/src/civilization_renderer.c:268-317 | The two line buffers show the first 34 tile columns of the first 32 sprites on the line, in rotated scan order, front to back; what a tile shows is TileShows |
| SpritePicture.VisibleExactly | static-recomp/src/civilization_renderer.c:260-266 | A sprite is on line y exactly when y is its Y plus one plus one of its rows, modulo 256, and one of its columns is on the screen or its X is -256 |
| SpritePicture.TileShows | static-recomp/src/civilization_renderer.c:293-315 | A tile shows its eight columns of the sprite's picture, read off the bit planes and flipped as a whole |
| SpritePicture.LineOfPictures | static-recomp/src/civilization_renderer.c:268-317 | A column of the line is zero exactly when every admitted tile draws nothing there, and else the palette, priority and picture pixel of the first that does |
| SpritePicture.AllAdmitted | static-recomp/src/civilization_renderer.c:279-297 | Within the limits every column of every sprite on the line is admitted |
| SpritePicture.SpriteDecoded | static-recomp/src/civilization_renderer.c:280-287 | The four bytes and two bits of a sprite: nine-bit signed X, Y, character, attributes and size |
| SpritePicture.SizePairs | static-recomp/src/civilization_renderer.c:246-258 | The pair of sizes of each mode |
| SpritePicture.ScanStart | static-recomp/src/civilization_renderer.c:272 | With rotation the scan starts at the sprite whose words the address register points at |
| Sprites.ScanComplete | static-recomp/src/civilization_renderer.c:279-297 | Stopping at the 32-sprite or the 34-tile limit loses nothing that would be admitted |
| Sprites.FrontIsFirst | static-recomp/src/civilization_renderer.c:305-314 | The front tile is the first opaque one of the list |
| Sprites.PaintSprite | static-recomp/src/civilization_renderer.c:297-315 | One sprite adds its columns, up to the tile limit, behind what is shown |
| Sprites.TilePixel | static-recomp/src/civilization_renderer.c:165-178 | The plane loop computes the tile's colour |
| Resampler.FrameCount | frontend/windows/civilization_audio_resampler.c:134-158 | From reset, a constant ratio r turns N inputs into floor(N / r) + 1 frames |
| Resampler.StreamSplits | frontend/windows/civilization_audio_resampler.c:134-158 | Cutting the input into calls anywhere changes neither the frames nor the state |
| Resampler.StreamLength | frontend/windows/civilization_audio_resampler.c:134-158 | The read position after any input is the frames emitted times the ratio minus the inputs |
| ResamplerLaws.StreamFrame | frontend/windows/civilization_audio_resampler.c:134-158 | From reset, output frame k is the reading at position k times the ratio, between the inputs three and two before that position |
| ResamplerLaws.EndsExact | frontend/windows/civilization_audio_resampler.c:9-43 | At the ends of an interval all three readings are the inputs themselves |
| ResamplerLaws.LineKept | frontend/windows/civilization_audio_resampler.c:9-43 | Both curves read a straight line as itself; the nearest reading takes the closer end |
| ResamplerLaws.ConstantKept | frontend/windows/civilization_audio_resampler.c:9-43 | A constant passes unchanged |
| ResamplerLaws.FrontThenQueue | frontend/windows/civilization_audio_resampler.c:106-158 | The buffer is filled first, then the queue, and both are the start of the whole |
| Resampler.Converter.Process | frontend/windows/civilization_audio_resampler.c:78-160 | A call delivers the queue, then the stream, the excess queued up to 16384 frames; nothing is lost exactly when there is nothing to pass through, or the queue alone does not fill the buffer and queue and stream fit buffer and queue |
| Resampler.NothingLost | frontend/windows/civilization_audio_resampler.c:78-160 | What a call hands over and leaves queued is the queue followed by the stream exactly under that condition |
| Resampler.InputLost | frontend/windows/civilization_audio_resampler.c:90-102 | A queue of one frame and a buffer of one frame lose an input of one frame |
| Resampler.Converter.Direct | frontend/windows/civilization_audio_resampler.c:106-133 | At equal rates every native frame passes unchanged, the excess queued |
| Resampler.Converter.EmitBurst | frontend/windows/civilization_audio_resampler.c:134-154 | The inner loop emits one frame for every position up to the end of the interval |
| Resampler.StagingSuffices | frontend/windows/civilization_audio_output_dsound_win32.c:813-823 | No native block of 4096 frames can exceed the 16384-frame staging buffer at any ratio of at least 0.33 |
| Resampler.RatioRange | frontend/windows/civilization_audio_output_dsound_win32.c:687-719 | Every ratio the controller can set on any device rate is at least 0.33, and at 48 kHz at least 0.66 |
| Resampler.TwiceIsEnough | frontend/windows/civilization_audio_resampler.h:34-35 | On the 48 kHz path twice the input frames is always enough |
| Resampler.Output.Pump | frontend/windows/civilization_audio_output_dsound_win32.c:813-832 | Draining in blocks hands over exactly the stream of the whole input; nothing is queued or dropped |
| Resampler.Output.Correct | frontend/windows/civilization_audio_output_dsound_win32.c:679-720 | The playback ratio is one plus the integral term, less the adjustment above the tolerance and plus it below; within a millisecond the integral term alone; and it stays in its band |
| Resampler.Output.EndOfFrame | frontend/windows/civilization_audio_output_dsound_win32.c:646-739 | Until enough depths are known nothing changes; then the correction opposes the gap of the mean of the last depths, or, when the gap is beyond recovery and the buffer could be cleared, the whole control starts afresh; and the next pump still loses nothing |
| Resampler.Output.Record | frontend/windows/civilization_audio_output_dsound_win32.c:662-671 | The ring holds the last depths, and once it is full the loop sums exactly those |
| ResamplerLaws.WindowExact | frontend/windows/civilization_audio_output_dsound_win32.c:662-671 | The window after any measurements holds the last ones, oldest first |
| ResamplerLaws.AdjustmentSize | frontend/windows/civilization_audio_output_dsound_win32.c:687-692 | The adjustment is a quarter of a thousandth for each millisecond beyond the tolerance, rounded up to a fine step, capped at the limit |
| Resampler.Output.Adjustment | frontend/windows/civilization_audio_output_dsound_win32.c:687-692 | The proportional term is positive exactly beyond the tolerance, and at most one per cent |

## Left out

- ClosureWorklist.Analyzer.ServiceReturn: the hard-coded threaded-RTS and $D4 sites are not covered: there the RTS pops an address that the code has pushed as data, which neither the analysis nor the machine here keeps on its stack
- Analyzer: the NMI stack re-entry edges, JSON output and the manifest
- Analyzer: the frontier for one runtime key decoding to different bytes, because decoding is a function of the runtime key here and the branch cannot be taken
- Analyzer: data pushes and pulls (PHA, PLA and the like), which it does not track either
- ClosureSoundness.PushdownSoundness: a run's untracked data are free, but the stack holds only the frames the analysis knows; code that rewrites its own return addresses is outside it
- RomMapping.MirrorAddress: the Python version raises on address 0 of a one-byte image, which is not modelled
- The natural-timing-off mode used before the first instruction, snapshots, scanline captures, diagnostics counters and probes
- The picture unit's windows, colour arithmetic, mode 7, mosaic and backdrop, which the modelled ports do not touch
- PpuPorts.Chip.WriteRegister: keeps no copy of the raw register bytes, nor the mode 7 values behind the scroll registers; of $2133 the machine keeps the overscan bit
- Audio ports, controller strobe and joypad state behind $4016, $4017, $4214-$421F and $2134-$2136: reads of these answer any byte, as a function of address and clock; the joypad side is modelled on its own in Joypad
- Console.Core.InternalCycles: each cycle is counted as it passes, the program counts all of them first; how many an instruction takes, and its dummy read when an edge is about to be recognised, are part of the free sequence of actions
- Console.Core.RunStatic: instructions are given as sequences of actions, so the generated dispatch and the audio hooks around the loop are not part of this model
- Console.Core.BusWrite8: the dirty flag of the save RAM, the counts of ignored ROM writes and the multiplier and divider behind $4202-$4206 are not kept
- MachineRuns.LineInTurn: a frame counts as undisturbed from the init dot on, so a pointer write between the init dot and the initialisation's service ends the claim although the service would overwrite it
- HdmaFrame.FrameFollowsTable: takes one service a line as given; LineInTurn and LineShown derive it for runs
- The machine's memories are sequences that the methods reassign, not arrays updated in place, so aliasing between them cannot be expressed
- A failure is the reason that was reported; what the program leaves in its fields after one is not compared
- Widescreen.Cursor.ConnectInput: guest writes to the nine camera words between inputs are not modelled, and the map focus, cursor position and camera row are inputs
- Joypad: the widescreen connector in front of port 1 is in Widescreen, not in the round trip
- Sprites: background layers, priority mixing and the wide frame around the line
- Resampler: doubles are reals, so rounding is not modelled; of the three interpolation formulas the values at the ends, on constants and on straight lines are proved
- Resampler.Output.EndOfFrame: DirectSound calls, buffer cursors, priming and volume are left out; whether the secondary buffer could be cleared is an input
- The literal return tables, the generated core and the S-SMP/S-DSP are data or code outside this model
- Win32 front end, settings, screenshots, persistence, hashing and the PCM ring: plumbing, or easier than the above
