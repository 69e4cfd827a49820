# A verified model of the C99 6502/65C02 emulator

The project models the emulator core as a step-by-step state machine and proves what it keeps over single steps
and over whole runs. It has two layers.

* **The running form.** `Processor.Processor` (registers, per-instruction globals, cycle counter),
  `Memory.RegionMemory` (the region table and its byte buffers), `InterruptController.InterruptUnit` (lines, latch,
  history ring, statistics) and `Profiler.ProfilingData` are classes whose methods update their fields in place, as
  the C functions do. Every method says what the whole new state is, as a function of the old one.
* **The value form.** `MachineState.Machine` is the same state as one value. `Cpu.Step`, `Instructions.Exec`,
  `Addressing.Resolve`, `Interrupts.Service`, `Arithmetic.Adc` and the tables in `Handlers`, `InstructionTable` and
  `Cpu` are functions on it; the theorems below are about these functions and, through the method contracts, about
  the running form.

A *run* (`Runs.Run`) is any sequence of steps, resets, IRQ and NMI line changes and history clears. P is kept as its
eight flags; `StatusRegister.Pack` and `Unpack` convert to and from the byte on the stack. The bus seen by the CPU is
the flat space `Bus.Space` (a kind for every mapped address, a byte for every backed one); `RegionTable` proves that the
region table is exactly that. 16-bit, 32-bit and 64-bit wrap-around is written out (`Low16`, `Low32`, `Low64`).

What single instructions do is said twice: by the value form, which follows the source, and by laws over `Cpu.Step` that
use neither its tables nor its handlers. `OpcodeBits` reads handler, mode and base cycles off the bits of the opcode;
`AddressModes`, `RegisterLaws`, `MemoryLaws`, `FlowLaws`, `StepTiming` and `ServiceFrame` speak of bytes in memory,
sums, bits, PC and cycles.

Main results, by file:

| file | result |
|---|---|
| Lockstep.dfy | an NMOS and a CMOS machine stay in lock step over portable runs; cycle counters differ by the indirect jumps |
| Cycles.dfy, CycleBudget.dfy | step costs; the run loop ends within 8 cycles of its budget or meets an idle machine, for exactly the budgets up to 2^32 - 9 |
| Nesting.dfy, StackDiscipline.dfy | nested interrupt services are transparent at every level |
| Calls.dfy | over whole runs with interrupts, every RTS continues after the JSR it closes; calls nest 128 deep |
| StackDepth.dfy, CircularStack.dfy | the 256-byte bound on the wrapping stack; the stack as a LIFO |
| MultiByte.dfy, MultiByteDecimal.dfy | n-byte binary and decimal arithmetic through the carry chain |
| RegionTable.dfy, Memory.dfy | the region table refines a flat partial map |
| Footprint.dfy | what a step and a run can write |
| InterruptRuns.dfy, Halted.dfy | NMI edges, IRQ masking, settled boundaries, stopped and waiting machines |
| History.dfy | the history ring refines the full event log |
| FusedOpcodes.dfy | fused undocumented opcodes are their two halves |
| OpcodeBits.dfy, OpcodeTables.dfy | all 256 entries of the dispatch, mode and cycle tables, on both variants, follow from the bits of the opcode |
| AddressModes.dfy, StepTiming.dfy | where every mode finds its operand; how many cycles every instruction takes |
| ArithmeticLaws.dfy, RegisterLaws.dfy, MemoryLaws.dfy, FlowLaws.dfy | what a step of every documented instruction does, by value, bit by bit and flag by flag; branches after comparisons |
| ServiceFrame.dfy | which interrupt is serviced, what it pushes bit by bit, where it goes and what it records |
| Tables.dfy | what NMOS makes of the opcodes the 65C02 added |
| Disassembler.dfy, Profiler.dfy, Loading.dfy | listing agrees with execution; true top-n hotspots; chunked load is one load |

## Where the code and its documentation differ

The model follows the code.

* README.md:266 says that 65C02-only instructions become NOPs in NMOS mode. Three groups of their opcodes do not:
  $80, $9C and $9E have no NMOS override and run as BRA and STZ; $12, $32 and the rest of that column halt the CPU; the
  RMB, SMB, BBR and BBS opcodes except $9F run undocumented instructions (`Tables.Opcode07Acts`: $07 stores to memory and
  changes A). `Tables.AdditionsAreNops` proves that all other additions are NOPs.
* RTI clears both B and U while PLP clears B and sets U. RTI gives back N V D I Z C; the whole of P comes back iff B and U
  were clear before (`Nesting.WholeStatusRestored`).
* The fused undocumented opcodes equal their two halves only where the store takes effect: outside RAM the second of two
  separate instructions reads the old byte.
* A stopped CPU still services interrupts, because the poll comes before the stopped test.
* The run loop never ends on an idle machine: idle steps add no cycles.
* Beyond a budget of 2^32 - 9 the run loop can also miss its budget for ever without idling: a three-instruction loop of 16
  cycles carries the 32-bit difference from 2^32 - 9 to 0 (`CycleBudget.LoopNeverSettles`).
* Undocumented indexed read-modify-write opcodes are not exempt from the page-crossing cycle, so a step can cost 9, and a
  run can overshoot by 8 (`CycleBudget.ExtremesReached`).
* The file loader tests the length in 32-bit arithmetic. A file too long for the address space is refused exactly when
  that sum does not wrap below the limit or some address is unbacked (`Loading.OversizeFile`); a file of 4 GiB goes in,
  65536 times round the address space (`Loading.FourGigabytesAccepted`).
* S at an RTI as its service left it does not alone make the RTI restore anything: a handler that pulls the saved status and
  pushes another byte returns with other flags (`Nesting.ReplacedStatus`). With S in place, RTI restores iff the three
  saved bytes still say the return address and the six flags (`Nesting.RtiStepIff`). `StackDiscipline` keeps them by a
  bound of 256 outstanding bytes and by not pushing over saved bytes.

## Model

| member | source | states |
|---|---|---|
| OpcodeTables.HandlerDecoded | src/instructions_handlers.c:15-173 | every opcode on both variants dispatches the handler that its row, column and low bits say; the exceptions are listed in OpcodeBits |
| OpcodeTables.ModeDecoded | src/instructions_table.c:4-323 | likewise for the addressing mode after the overrides of either variant |
| OpcodeTables.CyclesDecoded | src/cpu.c:55-101 | likewise for the base cycles, by the class of the handler and its mode |
| OpcodeTables.AccumulatorGroup | src/instructions_handlers.c:15-111 | opcodes 4k+1 but $89 are ORA AND EOR ADC STA LDA CMP SBC by the top three bits, with the mode of the middle three |
| OpcodeTables.ShiftGroup | src/instructions_handlers.c:15-111 | the addressed columns of the shifts, X with memory, INC and DEC, with their modes |
| OpcodeTables.BranchGroup | src/instructions_implementation.c:17-24 | opcodes 32k+16 branch on N, V, C or Z by the top two bits, taken iff the flag equals bit 5 |
| AddressModes.DirectModes | src/addressing.c:6-20 | immediate, page 0 and absolute operands are the code bytes after the opcode |
| AddressModes.IndexedModes | src/addressing.c:10-34 | zp,X and zp,Y wrap in page 0, abs,X and abs,Y in the address space |
| AddressModes.IndexedIndirect | src/addressing.c:48-53 | (zp,X) is the word stored at the operand shifted by X, whatever the other cells hold |
| AddressModes.IndirectIndexed | src/addressing.c:55-87 | (zp),Y is the word stored at the operand plus Y; (zp) is that word |
| AddressModes.IndirectJump | src/addressing.c:36-46 | JMP (abs) goes to the stored word; on NMOS a pointer at $xxFF takes its high byte from $xx00 |
| AddressModes.IndexedIndirectJump | src/addressing.c:89-93 | JMP (abs,X) goes to the word stored at the operand plus X |
| AddressModes.RelativeTarget | src/addressing.c:69-74 | a branch target lies -128..127 bytes from the next instruction, by the operand in two's complement |
| AddressModes.BitBranchTarget | src/instructions_implementation.c:474-493 | BBR and BBS branch by their third byte |
| AddressModes.PageCrossings | src/addressing.c:22-63 | a page is crossed iff indexing changes the high byte of the address |
| ArithmeticLaws.BinarySum | src/instructions_implementation.c:58-72 | A, C, Z, N and V of binary ADC by the sum; I D B U kept |
| ArithmeticLaws.BinaryDifference | src/instructions_implementation.c:112-126 | A, C, Z, N and V of binary SBC by the difference |
| ArithmeticLaws.DecimalSumFlagsNmos | src/instructions_implementation.c:98-107 | on NMOS N, Z and V of a decimal ADC are those of the binary one |
| ArithmeticLaws.DecimalSumFlagsCmos | src/instructions_implementation.c:98-107 | on CMOS N and Z tell the adjusted A and V is as on NMOS |
| ArithmeticLaws.DecimalDifferenceFlagsNmos | src/instructions_implementation.c:149-162 | on NMOS N, Z, V and C of a decimal SBC are those of the binary one |
| ArithmeticLaws.DecimalDifferenceFlagsCmos | src/instructions_implementation.c:149-162 | on CMOS N and Z tell the adjusted A; V and C are as on NMOS |
| ArithmeticLaws.DecimalSum | src/instructions_implementation.c:73-108 | decimal ADC of any two bytes, decimal digits or not: A digit by digit, and every flag |
| ArithmeticLaws.DecimalDifference | src/instructions_implementation.c:127-163 | decimal SBC of any two bytes: A digit by digit, and every flag |
| RegisterLaws.AddStep | src/instructions_implementation.c:57-72 | a step of ADC with D clear: the sum in A, its flags, the next instruction, nothing else |
| RegisterLaws.SubtractStep | src/instructions_implementation.c:111-126 | a step of SBC with D clear |
| RegisterLaws.DecimalAddStep | src/instructions_implementation.c:73-108 | a step of ADC with D set, on either variant |
| RegisterLaws.DecimalSubtractStep | src/instructions_implementation.c:127-163 | a step of SBC with D set, on either variant |
| RegisterLaws.LoadStep | src/instructions_implementation.c:14-30 | a step of LDA, LDX, LDY or LAX |
| RegisterLaws.TransferStep | src/instructions_implementation.c:31-36 | a step of a transfer between registers |
| RegisterLaws.CountStep | src/instructions_implementation.c:42-51 | a step of counting a register up or down, modulo 256 |
| RegisterLaws.FlagStep | src/instructions_implementation.c:176-182 | a step of a flag instruction sets or clears one flag |
| RegisterLaws.LogicStep | src/instructions_implementation.c:53-55 | a step of AND, ORA or EOR, bit by bit |
| RegisterLaws.BitTestStep | src/instructions_implementation.c:286-294 | a step of BIT: Z by common bits, N and V by bits 7 and 6, but for $89 |
| RegisterLaws.CompareStep | src/instructions_implementation.c:268-284 | a step of CMP, CPX or CPY: C, Z and N of the comparison |
| RegisterLaws.AndCarryStep | src/instructions_implementation.c:371-389 | a step of ANC or ALR |
| RegisterLaws.AndRotateStep | src/instructions_implementation.c:389-402 | a step of ARR: the rotation by value, C and V from bits 6 and 5 |
| MemoryLaws.StoreStep | src/instructions_implementation.c:15-29 | a step of STA, STX, STY, STZ or SAX puts that byte at its address, if RAM, and changes no flag |
| MemoryLaws.CountMemoryStep | src/instructions_implementation.c:46-47 | a step of INC or DEC, modulo 256 |
| MemoryLaws.TestBitsStep | src/instructions_implementation.c:445-459 | a step of TSB or TRB, bit by bit, Z by common bits |
| MemoryLaws.OneBitStep | src/instructions_implementation.c:463-473 | a step of RMB or SMB changes the bit the opcode names |
| MemoryLaws.ShiftStep | src/instructions_implementation.c:202-266 | a step of ASL, LSR, ROL or ROR of A or memory, by value with the carries |
| MemoryLaws.PushStep | src/instructions_implementation.c:37-39 | a step of PHA, PHP, PHX or PHY; PHP pushes the flags with bits 4 and 5 set |
| MemoryLaws.PullStep | src/instructions_implementation.c:38-40 | a step of PLA, PLP, PLX or PLY; PLP takes the flags bit by bit, B clear and U set |
| FlowLaws.CompareThenBranch | src/instructions_implementation.c:17-24 | CMP, CPX or CPY and then BCS, BCC, BEQ or BNE: taken by the order of register and operand |
| FlowLaws.LoadThenBranch | src/instructions_implementation.c:17-24 | a load and then BMI, BPL, BEQ or BNE: taken by bit 7 and by zero |
| FlowLaws.SubtractThenBranch | src/instructions_implementation.c:17-24 | SEC, SBC and then BVS or BVC: taken by whether the signed difference fits |
| FlowLaws.ConditionalBranchStep | src/instructions_implementation.c:17-24 | a conditional branch goes to its target or on, and changes nothing else |
| FlowLaws.BitBranchStep | src/instructions_implementation.c:474-493 | BBR and BBS go by the bit of the page-0 byte that the opcode names |
| FlowLaws.JumpStep | src/instructions_implementation.c:192-197 | JMP goes to its address and changes nothing else |
| FlowLaws.CallStep | src/instructions_implementation.c:198 | JSR goes to its operand word with S two lower |
| FlowLaws.ReturnStep | src/instructions_implementation.c:200 | RTI takes P and PC from the three bytes above S, bit by bit |
| FlowLaws.IdleHandlerStep | src/instructions_implementation.c:183-430 | NOPs only go on; WAI, STP and KIL halt besides |
| FlowLaws.AdcOpcodeStep | src/instructions_handlers.c:52-57 | every ADC opcode with D clear leaves A + operand + C modulo 256 in A |
| FlowLaws.ResetState | src/cpu.c:143-153 | registers, flags and cycles after a reset |
| StepTiming.PlainTiming | src/cpu.c:103-126 | cycles of everything but branches: base, page crossing unless exempt, JMP (abs) on CMOS |
| StepTiming.BranchTiming | src/cpu.c:121-126 | a taken branch costs one more, and two if it leaves the page |
| StepTiming.ExemptOpcodes | src/cpu.c:103-119 | the opcodes exempt from the page-crossing cycle are the documented indexed stores and read-modify-writes |
| ServiceFrame.ServiceChosen | src/cpu.c:207-213 | NMI before IRQ, IRQ only with I clear, BRK only if nothing is due |
| ServiceFrame.PushedStatusBits | src/interrupt.c:171-176 | bit 4 of the pushed status is set iff a BRK opcode was executed, bit 5 always; the others are the interrupted flags |
| ServiceFrame.PushedReturnAddress | src/interrupt.c:141-163 | the pushed address is the interrupted PC, or two past a BRK opcode, high byte first |
| ServiceFrame.ServiceEnters | src/interrupt.c:178-190 | PC from $FFFA or $FFFE, S three lower, I set, D cleared on CMOS only |
| ServiceFrame.ServiceRecorded | src/interrupt.c:75-101 | the event recorded: kind, PC, live status byte, poll count |
| Lockstep.RunsInLockstep | src/cpu.c:207-251 | for every run whose steps are portable (untouched opcode, no decimal arithmetic, D clear at interrupts, no JMP pointer ending in $FF) the CMOS twin reaches the same registers, memory, interrupt state and latches, ahead by the number of indirect jumps modulo 2^32 |
| Lockstep.VariantsAgree | src/cpu.c:207-251 | the same for two machines that start equal but for the variant |
| Lockstep.StepTwin | src/cpu.c:207-251 | one portable step commutes with switching the variant |
| Lockstep.ExecTwin | src/instructions_handlers.c:167-173 | every handler outside decimal arithmetic and decimal-mode BRK does the same on both variants, JMP $6C costing CMOS one more cycle |
| Lockstep.DecodeTwin | src/addressing.c:36-46 | addressing is variant-independent except for the NMOS indirect-jump wrap |
| Cycles.CostAdded | src/cpu.c:207-251 | a step adds exactly its cost to the 32-bit counter, wrap included |
| Cycles.CostBounds | src/cpu.c:55-126 | services cost 7, dispatched instructions 2 to 9, except NMOS $02 $22 $42 $62, which cost 0 and stop the CPU |
| CycleBudget.BudgetExact | src/cpu.c:253-258 | every machine finishes near its budget or meets an idle machine iff the budget is at most 2^32 - 9 |
| CycleBudget.LoopNeverSettles | src/cpu.c:253-258 | a concrete ROM loop that for every larger budget is never idle and never reaches it |
| CycleBudget.ExtremesReached | src/cpu.c:103-126 | a step that costs 9 cycles and a run that overshoots by 8 exist |
| Cycles.ElapsedNext | src/cpu.c:253-258 | elapsed cycles in the loop's 32-bit subtraction grow by the step's cost even where the counter wraps |
| Cycles.RunOutcome | src/cpu.c:253-258 | with fixed lines the run loop finishes with elapsed cycles in [M, M+8], every earlier step under budget, or reaches an idle machine with budget left |
| Cycles.HangsForever | src/cpu.c:253-258 | after an idle machine with budget left the loop condition stays true for ever |
| Cycles.IdleFixed | src/cpu.c:207-216 | an idle machine is a fixed point of the step apart from the poll counter |
| Nesting.NestedServicesTransparent | src/interrupt.c:120-204 | in any well-bracketed run that writes no saved byte, every RTI at every level restores PC, S and N V D I Z C of the service it closes and clears B and U |
| Nesting.ServiceTransparent | src/instructions_implementation.c:184-200 | from a service to its own RTI: PC is back (two past the opcode for BRK, modulo 65536), S and the six flags are back, B and U are clear |
| Nesting.RtiRestores | src/instructions_implementation.c:200 | RTI undoes the three pushes of a service from any S, page wrap included |
| Nesting.RtiStepIff | src/instructions_implementation.c:200 | with S where the service left it, RTI restores PC, S and the six flags iff the saved bytes still say them |
| Nesting.WholeStatusRestored | src/instructions_implementation.c:200 | after a restoring RTI the whole of P is back iff B and U were clear before |
| Nesting.ReplacedStatus | src/instructions_implementation.c:184-200 | a handler that replaces the saved status by PLA and PHA gets PC and S back, and the flags iff the new byte has the same six |
| Nesting.PushFrameHolds | src/interrupt.c:141-176 | with page 1 in RAM a service leaves return address and status in the three slots below S |
| StackDiscipline.DisciplinedNesting | src/interrupt.c:120-204 | with at most 256 bytes outstanding since the outermost service, S at each RTI as its service left it, no push over saved bytes and no store to them, every RTI of the run restores its service; pulls and TXS are free |
| StackDepth.PushesMissSaved | src/stack.c:6-13 | pushes that start below the innermost frame and stay within 256 bytes of the outermost never reach a saved byte |
| Calls.DisciplinedCallsReturn | src/instructions_implementation.c:198-199 | under the same discipline for calls, every RTS of a run, interrupts included, continues at the byte after its JSR with S as before it |
| Calls.NestedCallsReturn | src/instructions_implementation.c:198-199 | runs whose only stack instructions are JSR and RTS, up to 128 calls deep, return from every call |
| CircularStack.RefinesLifo | src/stack.c:6-23 | from any S every interleaving of pushes and pops with at most 256 bytes outstanding answers as an abstract byte stack and changes nothing outside $0100-$01FF |
| MultiByte.BinaryAddition | src/instructions_implementation.c:57-72 | n chained binary ADCs give n bytes with the exact sum, the carry-out worth 256^n |
| MultiByte.BinarySubtraction | src/instructions_implementation.c:111-126 | n chained binary SBCs give n bytes with the exact difference, a clear carry standing for a borrow of 256^n |
| MultiByte.SignedOverflowOfSum | src/instructions_implementation.c:69-70 | V after the last byte is set iff the signed n-byte sum does not fit |
| MultiByte.SignedOverflowOfDifference | src/instructions_implementation.c:123-124 | V after the last byte is set iff the signed n-byte difference does not fit |
| MultiByte.SubtractIsAddComplement | src/instructions_implementation.c:112-126 | binary SBC of v is ADC of v xor $FF on A and every flag |
| MultiByte.RotationRoundTrip | src/instructions_implementation.c:234-266 | a low-to-high ROL chain followed by a high-to-low ROR chain gives back all bytes and C |
| MultiByteDecimal.DecimalAddition | src/instructions_implementation.c:73-108 | n chained decimal ADCs on valid digits give valid digits and the exact sum, the carry-out worth 100^n |
| MultiByteDecimal.DecimalSubtraction | src/instructions_implementation.c:127-163 | n chained decimal SBCs on valid digits give valid digits and the exact difference, a clear carry worth 100^n |
| MultiByteDecimal.SubtractionUndoesAddition | src/instructions_implementation.c:57-164 | subtracting the second operand with the opposite carry-in recovers the first operand and ends with the opposite carry-out |
| RegionTable.AddsFlatten | src/memory.c:22-109 | after any sequence of add calls the table is valid (at most 16 disjoint regions, buffers of their own size) and stands for the flat space the calls describe |
| RegionTable.AddFlattens | src/memory.c:32-109 | an add call is accepted iff a slot is free and its nonempty range is unmapped, and then extends the flat space by zeroed cells |
| RegionTable.TotalSizeBound | src/memory.c:22-29 | the regions of a valid table total at most 65536 bytes |
| RegionTable.OnlyMatch | src/memory.c:111-118 | a region that covers an address is the one the search finds |
| RegionTable.BusRefines | src/memory.c:120-162 | reads and writes on the table are reads and writes of the flat space, so a write changes its one cell iff that is RAM |
| RegionTable.OrderIrrelevant | src/memory.c:111-118 | tables with the same regions in any order are the same memory |
| Memory.RegionMemory.AddRegion | src/memory.c:32-109 | appends the region with a fresh zeroed buffer, or answers -1 and changes nothing |
| Memory.RegionMemory.RegionOverlaps | src/memory.c:23-30 | the scan answers whether some region meets the range |
| Memory.RegionMemory.FindRegion | src/memory.c:111-118 | the scan finds the first covering region or none |
| Memory.RegionMemory.Read | src/memory.c:120-138 | reads the flat space, $FF where nothing is backed |
| Memory.RegionMemory.Write | src/memory.c:140-162 | writes the flat space, RAM only |
| Memory.RegionMemory.Load | src/memory.c:172-181 | stores the bytes up to the first address without a buffer, ROM included, and answers whether all went in |
| Memory.RegionMemory.SetVector | src/memory.c:183-197 | succeeds iff one region holds both bytes; then the vector reads back as the destination, otherwise nothing changes |
| Memory.RegionMemory.Clear | src/memory.c:12-20 | leaves an empty address space |
| Footprint.StepFootprint | src/cpu.c:207-251 | a step changes at most three cells, all in RAM: the one at EA, or up to three stack slots |
| Footprint.RunFootprint | src/cpu.c:207-251 | any run changes only RAM cells its steps stored to; ROM, unmapped addresses and the region map stay |
| InterruptRuns.PendingIffUnservedEdge | src/interrupt.c:41-69 | NMI is pending iff some 1-to-0 edge has not been followed by an NMI service |
| InterruptRuns.NmiServicesNeedEdges | src/interrupt.c:41-69 | services plus the pending one never exceed the falling edges |
| InterruptRuns.PendingNmiTaken | src/cpu.c:207-213 | a pending NMI is serviced by the very next step in every state |
| InterruptRuns.IrqServicesSeparated | src/interrupt.c:178-190 | between two IRQ services some CLI, PLP or RTI has been executed |
| InterruptRuns.ReachableSettled | src/interrupt.c:192-196 | after initialisation and reset, in every reachable state no sequence is in progress and B is clear in the live P |
| InterruptRuns.SequencesNeverOverlap | src/interrupt.c:103-203 | a sequence begins only when none is in progress and completes in one call: the hijack and the later-cycle branches are unreachable |
| Halted.StoppedRun | src/cpu.c:207-216 | once stopped and until reset: no dispatch, A X Y unchanged, at most one IRQ service, every other service consumes an edge |
| Halted.WaitingRun | src/cpu.c:207-216 | until a service or a reset a waiting machine keeps registers, memory, cycles and goes on waiting |
| Halted.WaitingEnds | src/interrupt.c:186-187 | waiting ends only by a service or a reset |
| History.RunViews | src/interrupt.c:75-101 | after any run the ring holds the last 32 events since the last clear, each at its number modulo 32, with matching count, index and totals |
| History.DumpAfterRun | src/interrupt.c:218-250 | from an initialised controller the dump is exactly the tail of the event log, oldest first |
| History.StatisticsTell | src/interrupt.c:82-100 | the index is the sum of the totals modulo 32 (through 64-bit wrap), the count their sum capped at 32 |
| History.StampsIncrease | src/interrupt.c:55-56 | cycle stamps rise strictly along the log until the 64-bit poll counter wraps |
| StepEffects.ServiceEffect | src/interrupt.c:103-204 | the complete effect of a service: pushes, flags, vector, cycles, latch, log |
| StepEffects.StepFlags | src/cpu.c:207-251 | B never enters the live P, a service sets I, and only CLI, PLP and RTI clear it |
| StepEffects.StepStackPointer | src/cpu.c:207-251 | S moves by the bytes pushed and pulled, or to X by TXS |
| Frame.ExecFramed | src/instructions_implementation.c:14-493 | what every handler but BRK leaves alone: controller, variant, PC unless it jumps, S unless it pushes or pulls, memory outside its footprint |
| FusedOpcodes.FusedIsSequence | src/instructions_implementation.c:312-369 | with EA in RAM, SLO RLA SRE RRA DCP ISC equal ASL;ORA ROL;AND LSR;EOR ROR;ADC DEC;CMP INC;SBC on the whole machine, in both modes |
| FusedOpcodes.LawIffStoreKept | src/instructions_implementation.c:312-369 | for any address, that law holds for every A iff the address is RAM or the byte stored is the one already there |
| FusedOpcodes.HalvesWithoutStore | src/memory.c:140-162 | where the store has no effect the second half works on the old byte |
| Arithmetic.OverflowMasks | src/instructions_implementation.c:69-124 | the sign tests for V are bit 7 of the masks over A, operand and result |
| Tables.AdditionsAreNops | src/instructions_handlers.c:117-173 | an opcode the 65C02 added, by handler or addressing mode, is a NOP on NMOS iff it is none of $80, $9C, $9E, the halting column $12-$F2 and the RMB, SMB, BBR and BBS opcodes other than $9F |
| Tables.AdditionsOnNmos | src/instructions_handlers.c:117-162 | of the handlers the 65C02 added exactly $80, $9C and $9E still run on NMOS |
| Tables.Opcode07Acts | src/instructions_handlers.c:134-138 | $07 on NMOS writes memory and A |
| Disassembler.Disassemble | src/debugger.c:407-441 | the listing has the requested number of lines, each with its address, opcode and operand bytes |
| Disassembler.ListingFollowsExecution | src/debugger.c:407-441 | along straight-line read-only code PC after n steps is the address after n lines of the listing |
| Profiler.ProfilingData.RecordInstruction | src/debugger.c:278-285 | counts one instruction at its opcode and address; both tables keep summing to the number recorded, modulo 2^64 |
| Profiler.IncrementAccounts | src/debugger.c:278-285 | counters that account for n instructions account for n + 1 after one increment, exactly until the count itself wraps |
| Profiler.PartialSort | src/debugger.c:339-348 | the exchange loop permutes the entries and places the largest first, in descending order |
| Profiler.DumpHotspots | src/debugger.c:301-358 | prints min(top n, active) distinct addresses with exact counts, descending, and leaves out none that counts more |
| Profiler.ActiveExact | src/debugger.c:330-337 | the collected entries are the executed addresses, each once with its count |
| Loading.ChunksAreOneLoad | src/loader.c:31-43 | loading a file in any chunks is loading it at once |
| Loading.FileLoadOutcome | src/loader.c:25-43 | past the 32-bit length test the load succeeds iff every address it reaches is backed; it leaves the bytes before the first gap, later bytes winning where addresses wrap; a file that fails the test leaves nothing |
| Loading.FittingFile | src/loader.c:25-43 | a file that fits is loaded iff its addresses are backed and then lies exactly there, everything else unchanged |
| Loading.OversizeFile | src/loader.c:25-31 | a file that does not fit is refused iff the 32-bit sum exceeds 65536 or some address is unbacked |
| Loading.FourGigabytesAccepted | src/loader.c:25-31 | a file of 2^32 bytes passes the test and leaves its last 65536 bytes |
| Loader.LoadBinRegion | src/loader.c:25-51 | the chunk loop, its length test and offset in 32-bit arithmetic, computes that load |
| InterruptController.InterruptUnit.Init | src/interrupt.c:15-30 | clears the controller but not the poll counter |
| InterruptController.InterruptUnit.DriveNmi | src/interrupt.c:41-49 | latches an NMI on a 1-to-0 edge |
| InterruptController.InterruptUnit.Poll | src/interrupt.c:55-69 | counts the poll; NMI first, then an unmasked IRQ |
| InterruptController.InterruptUnit.RecordInterrupt | src/interrupt.c:75-101 | stores the event at the ring index and advances index, count and total |
| InterruptController.InterruptUnit.DumpHistory | src/interrupt.c:218-250 | lists the ring oldest first |
| InterruptController.InterruptUnit.Clear | src/interrupt.c:260-267 | clears count, index and totals |
| Processor.Processor.Push8 | src/stack.c:6-8 | stores at $0100+S and decrements S with wrap |
| Processor.Processor.Pop16 | src/stack.c:19-23 | two pops, low byte first |
| Processor.Processor.Fetch16 | src/cpu.c:276-281 | reads a little-endian word at PC and advances PC by two, both with wrap |
| Processor.Processor.AddrResolve | src/addressing.c:95-127 | sets EA, its presence, page crossing and branch offset and advances PC for every mode, as the lemmas of AddressModes say of the bytes in memory |
| Processor.Processor.AdcCore | src/instructions_implementation.c:57-109 | A and P after ADC in both modes and variants, by value in `ArithmeticLaws` |
| Processor.Processor.SbcCore | src/instructions_implementation.c:111-164 | A and P after SBC in both modes and variants, by value in `ArithmeticLaws` |
| Processor.Processor.RunRegister | src/instructions_implementation.c:14-182 | the register handlers change registers and flags only, as specified |
| Processor.Processor.RunMemory | src/instructions_implementation.c:15-473 | the storing handlers write one byte through EA and update A and P as specified |
| Processor.Processor.RunShift | src/instructions_implementation.c:202-266 | shifts and rotates of A or of the byte at EA |
| Processor.Processor.RunBranch | src/instructions_implementation.c:17-24 | a branch moves PC to its target and marks the extra cycles iff its condition holds, which `FlowLaws` and `StepTiming` say by flag, bit and page |
| Processor.Processor.RunRti | src/instructions_implementation.c:200 | pops P without B and U, then PC |
| Processor.Processor.InterruptBegin | src/interrupt.c:103-118 | starts a sequence and records it |
| Processor.Processor.InterruptStepCycle | src/interrupt.c:120-204 | performs the whole sequence in one call; `ServiceFrame` says what it leaves byte by byte |
| Processor.Processor.Dispatch | src/instructions_handlers.c:167-173 | runs the handler selected by variant and opcode, which by `OpcodeTables.HandlerDecoded` is the one the bits of the opcode say |
| Processor.Processor.Step | src/cpu.c:207-251 | one step of the running form is one step of the value form |
| Processor.Processor.Reset | src/cpu.c:143-153 | registers, halt flags and cycle counter after a reset |
| Processor.Processor.RunCycles | src/cpu.c:253-258 | the loop reaches its budget with at most 8 cycles more, or an idle machine on which the emulator would loop for ever |
| Processor.Processor.AssertIrq | src/cpu.c:260-263 | drives the IRQ line active and changes nothing else |
| Processor.Processor.PulseNmi | src/cpu.c:265-270 | a pulse leaves an NMI pending whatever the line was |
| StatusRegister.PackUnpack | include/types.h:26-37 | the flags of a status byte give back that byte |
| StatusRegister.UnpackPack | include/types.h:26-37 | the byte of eight flags gives back those flags |
| Types.Not8IsXor | src/instructions_implementation.c:116 | the complement is the exclusive or with $FF |

## Left out

- RegionTable.BusRefines: an I/O region is kept in the table without handlers (reads give $FF, writes do nothing); arbitrary device code behind function pointers is not modelled.
- Memory.RegionMemory.Read: reads no device, for the same reason.
- Memory.RegionMemory.Write: writes no device, for the same reason.
- Memory.RegionMemory.AddRegion: stands for the RAM, ROM and I/O add functions, which differ in the kind, the buffer and the device handlers left out; `calloc` is taken to succeed.
- Raw pointers: `mem_region_get_ptr` is not part of this model.
- An unattached bus (`BUS.READ` or `BUS.WRITE` null): the region bus is always attached.
- Switching the variant during a run: the variant is fixed when the processor is built.
- Processor.Processor.RunCycles: requires a budget of at most 2^32 - 9, since beyond it the C loop need not end (`CycleBudget.BudgetExact`); and it returns on an idle machine where the C loop would not end.
- Cycles.RunOutcome: has the same bound, exact by `CycleBudget.BudgetExact`, and is about runs with fixed interrupt lines.
- StackDiscipline.DisciplinedNesting: a reset ends the runs it speaks of, because a reset abandons the open services.
- Calls.DisciplinedCallsReturn: likewise for a reset.
- Loader.LoadBinRegion: the file is the sequence of pieces its reads deliver; `fopen`, `fseek` and read errors are left out.
- Disassembler.Disassemble: returns its lines instead of printing them; mnemonics are left out.
- Profiler.DumpHotspots: returns the printed entries instead of printing them.
- Breakpoints, watchpoints, hex dump, memory search, trace, logging, terminal monitor and command line: no part of the machine's behaviour, or easy members only.
- Conformance of undocumented opcodes to real silicon: the results are about the code's own semantics.
