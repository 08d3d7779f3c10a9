# LS-8 CPU, modelled in Dafny

The LS-8 is a small byte-code machine. It has eight registers, 256 cells of
RAM, a program counter and a comparison flag. Register 7 is the stack
pointer. `CPU.run` is a fetch-decode-execute loop over thirteen opcodes:
HLT, LDI, PRN, MUL, ADD, PUSH, POP, CALL, RET, CMP, JMP, JEQ and JNE. It
prints values as it goes and ends on HLT, on an unknown opcode, on JMP, or
when a Python `IndexError` escapes.

The project has four modules:

- `Machine` (machine.dfy) gives the machine as values:
  - the state and the fresh CPU;
  - Python list indexing into the registers and RAM;
  - `ram_read`, `ram_write` and `alu`;
  - one iteration of the loop (`Step`) and a fuel-bounded `Run`.
- `Cpu` (cpu.dfy) gives the Python object itself. Class `CPU` keeps its
  registers and RAM in arrays and updates them in place, as the Python
  object updates its lists. Each method is proved equal to the matching
  `Machine` function. `CPU.Run` is the `while` loop, proved to produce
  exactly what `Machine.Run` says.
- `Properties` (properties.dfy) holds lemmas about what each opcode does:
  - how pc advances;
  - which registers, RAM cells and flag bits change;
  - what PUSH/POP, CALL/RET and CMP/JEQ/JNE achieve together;
  - how a bounded run depends on its budget.
- `Programs` (programs.dfy) runs whole programs from a fresh machine. One
  of them is `print8`, the image built into the CPU, which prints 8 and
  halts.

Behaviour is kept exactly as the code is written.

- Values are unbounded integers, as Python's are. Nothing wraps at 8 bits.
- An index `i` into a list of length `n` is accepted when `-n <= i < n`,
  and a negative `i` counts from the end, as in Python.
  - The stack pointer starts at 0, because all registers start at 0. So
    the first PUSH writes `ram[-1]`, which is the last cell.
  - An index outside that range raises `IndexError`. The model reports it
    as status `Fault`, together with the state as far as the instruction
    had changed it (Python does not undo a partial update).
    - PUSH and CALL decrement SP before the access that can fail.
    - CALL writes the return address before it reads the target register.
- The opcode and both operand bytes are read on every iteration, so each
  step needs `pc + 2` to be a valid RAM index.
- MUL prints the product and stores nothing. ADD stores its sum.
- JMP compares pc with its target (`==`, not `=`) and leaves the loop with
  pc unchanged (status `JmpExit`).
- JEQ and JNE test `flag & 1`. Of CMP's three flag patterns, only "equal"
  has bit 0 set, so the tests mean "equal" and "not equal".
- HLT steps pc past itself and exits (status `Halted`). An unknown opcode
  is reported and exits (status `InvalidOpcode(op)`).

Where the LS-8 design and this code disagree, the model follows the code:

- The design starts SP at 0xF4; this code starts it at 0.
- The design asks arithmetic to wrap at 8 bits; this code never wraps.
- The design says MUL should store its product; this code only prints it.

## Model

| member | source | states |
|---|---|---|
| Machine.Init | ls8/cpu.py:8-14 | a fresh CPU has 8 registers and 256 RAM cells, all zero, with pc 0 and flag 0 |
| Machine.Boot | ls8/cpu.py:47-48 | RAM of a fresh CPU starts with the program image and is zero after it; registers, pc and flag are as fresh |
| Machine.Slot | ls8/cpu.py:51 | Python list indexing: an index is accepted iff -n <= i < n, and it then names the element congruent to i modulo n |
| Machine.RamRead | ls8/cpu.py:50-51 | `ram_read` gives ram[address] for 0 <= address < 256 and ram[256 + address] for -256 <= address < 0, and fails exactly outside that range |
| Machine.RamWrite | ls8/cpu.py:53-54 | `ram_write(value, address)` fails exactly outside -256..255; otherwise reading `address` back gives `value`, every other cell is unchanged, and registers, pc and flag are unchanged |
| Machine.Compare | ls8/cpu.py:68-76 | CMP's flag is one of the three patterns, chosen by trichotomy (equal iff 0b00000001, greater iff 0b10000010, less iff 0b00000100), and bit 0 is set exactly for equal |
| Machine.Alu | ls8/cpu.py:56-78 | `alu` rejects any tag outside ADD, SUB, MUL, CMP; it fails with IndexError exactly when a register index is bad; ADD/SUB/MUL set only reg[a] to the sum, difference or product and keep the flag; CMP keeps the registers and sets the flag by Compare; RAM and pc are never touched |
| Machine.Fetch | ls8/cpu.py:125-128 | the opcode and both operand bytes are fetched iff -256 <= pc and pc + 2 < 256, and they are the RAM cells at pc, pc + 1 and pc + 2 |
| Machine.Ldi | ls8/cpu.py:147-149 | LDI keeps the state well-formed (its effect is stated by Properties.LoadImmediate) |
| Machine.Push | ls8/cpu.py:152-158 | PUSH keeps the state well-formed, also when it faults (its effect is stated by Properties.PushEffect) |
| Machine.Pop | ls8/cpu.py:160-166 | POP keeps the state well-formed (its effect is stated by Properties.PopEffect) |
| Machine.Add | ls8/cpu.py:169-172 | ADD keeps the state well-formed (its effect is stated by Properties.AddStores) |
| Machine.Call | ls8/cpu.py:175-178 | CALL keeps the state well-formed, also when it faults (its effect is stated by Properties.CallEffect) |
| Machine.Ret | ls8/cpu.py:181-183 | RET keeps the state well-formed (its effect is stated by Properties.CallThenRet) |
| Machine.Cmp | ls8/cpu.py:189-191 | CMP keeps the state well-formed (its effect is stated by Properties.CompareSetsFlag) |
| Machine.Execute | ls8/cpu.py:131-219 | every branch of the dispatch keeps the state well-formed, prints at most one value and never reports running out of fuel |
| Machine.Step | ls8/cpu.py:124-219 | one loop iteration keeps the state well-formed and prints at most one value; a fetch outside RAM faults with nothing changed |
| Machine.Iterate | ls8/cpu.py:122-124 | repeating a well-formed step until it stops or the budget is used up ends in a well-formed state with a final status (never Continue) |
| Machine.Run | ls8/cpu.py:100-219 | `run` with a budget ends with a final status in a well-formed state; with no budget it stops at once with nothing printed |
| Machine.RunFirstStep | ls8/cpu.py:124-219 | a run is its first iteration, then (only if that iteration continued) a run from that iteration's state with one iteration less, its output appended |
| Properties.AdvanceByWidth | ls8/cpu.py:131-212 | HLT, LDI, PRN, MUL, ADD, PUSH, POP, CMP and untaken JEQ/JNE advance pc by 1 + (opcode >> 6) when they do not fault |
| Properties.InvalidOpcodeStops | ls8/cpu.py:216-219 | the step reports InvalidOpcode iff the fetched byte is outside the opcode table, and then nothing changes |
| Properties.HaltStops | ls8/cpu.py:131-135 | the step halts iff the opcode is HLT, and then only pc changes, by 1, and nothing is printed |
| Properties.JmpDoesNotJump | ls8/cpu.py:194-196 | JMP leaves the whole state (pc included) unchanged and ends the loop, or faults when its register index is bad |
| Properties.JmpExitOnlyFromJmp | ls8/cpu.py:194-196 | a step leaves the loop with JmpExit iff it fetched JMP with a valid register operand |
| Properties.FetchFaults | ls8/cpu.py:125-128 | when pc or pc + 2 is outside RAM the step faults and changes nothing |
| Properties.AluRejectsUnknown | ls8/cpu.py:77-78 | `alu` fails with "unsupported operation" iff the tag is not ADD, SUB, MUL or CMP |
| Properties.LoadImmediate | ls8/cpu.py:147-149 | LDI r, v sets register r to v, changes no other register, RAM cell or flag, and advances pc by 3; a bad r faults with nothing changed |
| Properties.AddStores | ls8/cpu.py:169-172 | ADD a, b sets reg[a] to reg[a] + reg[b], changes no other register, RAM cell or flag, and advances pc by 3; a bad index faults with nothing changed |
| Properties.OutputOnly | ls8/cpu.py:137-144 | MUL and PRN change nothing but pc (by 3 and 2); MUL prints reg[a] * reg[b] and PRN prints reg[a] |
| Properties.CompareSetsFlag | ls8/cpu.py:189-191 | CMP sets the flag by trichotomy on the two registers, keeps registers and RAM, prints nothing and advances pc by 3 |
| Properties.BranchesAreComplements | ls8/cpu.py:199-212 | JEQ is taken iff JNE is not; a taken branch sets pc to the register (or faults on a bad index), an untaken one advances pc by 2; nothing else changes |
| Properties.CompareThenBranch | ls8/cpu.py:189-212 | right after a CMP, JEQ jumps iff the compared registers were equal and JNE iff they were not |
| Properties.PushEffect | ls8/cpu.py:152-158 | PUSH r decrements SP and stores the operand register, read after the decrement, at the new SP, advancing pc by 2 |
| Properties.PopEffect | ls8/cpu.py:160-166 | POP r loads register r from the cell at SP, then increments SP, advancing pc by 2 and leaving RAM unchanged |
| Properties.PushPopRoundTrip | ls8/cpu.py:152-166 | PUSH r followed by POP r restores every register, SP included, keeps the flag, prints nothing, advances pc by 4, and changes RAM only at SP - 1 |
| Properties.CallEffect | ls8/cpu.py:175-178 | CALL r decrements SP, stores pc + 2 at the new SP, and jumps to register r as read after the decrement |
| Properties.CallThenRet | ls8/cpu.py:175-183 | a RET run with SP back at the slot a CALL pushed, and that slot intact, returns to the CALL's pc + 2 and restores SP to its value before the CALL |
| Properties.CallRetImmediately | ls8/cpu.py:175-183 | a CALL to a RET comes straight back to pc + 2 with all registers and the flag as before |
| Properties.IterateStable | ls8/cpu.py:122-124 | once an iteration has stopped, a larger budget gives the same result |
| Properties.IterateSplit | ls8/cpu.py:122-124 | n + m iterations that have not stopped after n are n iterations followed by m more from where they left off |
| Properties.RunStable | ls8/cpu.py:100-219 | once a run has stopped, a larger budget gives the same result |
| Properties.RunSplit | ls8/cpu.py:100-219 | a run that used up its budget resumes: n + m iterations are n, then m more from that state, with outputs concatenated |
| Properties.StopsPrintNothing | ls8/cpu.py:131-219 | an iteration that ends the loop prints nothing |
| Cpu.CPU.constructor | ls8/cpu.py:8-14 | the new object holds exactly Machine.Init |
| Cpu.CPU.Load | ls8/cpu.py:47-48 | copies the image into the first cells of RAM and leaves the rest of RAM as it was |
| Cpu.CPU.RamRead | ls8/cpu.py:50-51 | reads the array cell Python indexing selects, and fails exactly outside -256..255 |
| Cpu.CPU.RamWrite | ls8/cpu.py:53-54 | succeeds exactly inside -256..255 and then leaves the object in the state Machine.RamWrite gives; otherwise RAM is unchanged |
| Cpu.CPU.Alu | ls8/cpu.py:56-78 | returns the error Machine.Alu reports and leaves the object unchanged, or leaves it in the state Machine.Alu gives |
| Cpu.CPU.Halt | ls8/cpu.py:131-135 | the object ends as Machine.Halt says: pc + 1, status Halted |
| Cpu.CPU.Mul | ls8/cpu.py:137-140 | prints, updates the object and reports as Machine.Mul says |
| Cpu.CPU.Prn | ls8/cpu.py:142-145 | prints, updates the object and reports as Machine.Prn says |
| Cpu.CPU.Ldi | ls8/cpu.py:147-149 | updates the register array in place as Machine.Ldi says |
| Cpu.CPU.Push | ls8/cpu.py:152-158 | updates SP and RAM in place as Machine.Push says, including the partial update when it faults |
| Cpu.CPU.Pop | ls8/cpu.py:160-166 | updates the register array in place as Machine.Pop says |
| Cpu.CPU.Add | ls8/cpu.py:169-172 | updates the register array in place as Machine.Add says |
| Cpu.CPU.Call | ls8/cpu.py:175-178 | updates SP, RAM and pc in place as Machine.Call says, including the partial update when it faults |
| Cpu.CPU.Ret | ls8/cpu.py:181-183 | updates pc and SP in place as Machine.Ret says |
| Cpu.CPU.Cmp | ls8/cpu.py:189-191 | calls the ALU for CMP and updates the object as Machine.Cmp says |
| Cpu.CPU.Jmp | ls8/cpu.py:194-196 | reports exactly as Machine.Jmp says, changing nothing |
| Cpu.CPU.Branch | ls8/cpu.py:199-212 | updates pc as Machine.Branch says for JEQ and JNE |
| Cpu.CPU.Step | ls8/cpu.py:125-219 | one iteration of the loop on the object: new state, output and status are exactly Machine.Step of the old state |
| Cpu.CPU.Advance | ls8/cpu.py:124-219 | one pass of the loop keeps the run's bookkeeping: the run from the start is what was printed so far followed by the run from the current state |
| Cpu.CPU.Run | ls8/cpu.py:100-219 | the `while` loop on the object prints exactly Machine.Run's output and ends in its state with its status |
| Cpu.RunResumes | ls8/cpu.py:124-219 | if a run has printed `out` and continues from s, then after one more step it has printed `out` plus that step's output and continues (or ends) as the step says |
| Programs.Print8Runs | ls8/cpu.py:37-45 | the built-in print8 image prints [8] and halts with R0 = 8 and pc = 6, for any budget of at least 3 |
| Programs.Print8NeedsThreeSteps | ls8/cpu.py:37-45 | with a budget under 3, print8 runs out of fuel, having printed [8] only with a budget of exactly 2 |
| Programs.MultPrintsButDoesNotStore | ls8/cpu.py:137-140 | LDI R0,8; LDI R1,9; MUL R0,R1; PRN R0; HLT prints [72, 8] and halts with R0 still 8 |
| Programs.StackUsesLastCell | ls8/cpu.py:152-166 | LDI R0,5; PUSH R0; LDI R0,0; POP R0; PRN R0; HLT prints [5], and the pushed value sits in the last RAM cell because SP starts at 0 |
| Programs.JumpLeavesTheLoop | ls8/cpu.py:194-196 | LDI R1,9; JMP R1; ... ends with JmpExit at the JMP, pc 3, having printed nothing |
| Programs.UnknownOpcodeFirst | ls8/cpu.py:216-219 | a program starting with 0xFF is reported as InvalidOpcode(0xFF) at once, with nothing changed |
| Programs.RunPrint8 | ls8/cpu.py:37-45 | a fresh CPU object loaded with print8 and run prints [8] and halts |

## Left out

- `load` (ls8/cpu.py:16-48): opening and parsing the file named on the
  command line is not modelled. The program image is a parameter instead:
  `Machine.Boot` for values, and `CPU.Load` for the copy loop of lines
  47-48.
- `trace` (ls8/cpu.py:80-98): it only prints diagnostics.
- `print`: printed values are modelled as an output sequence. The text of
  the invalid-instruction message is not; `InvalidOpcode(op)` carries
  the byte it shows.
- `sys.exit`: modelled as the statuses `Halted` and `InvalidOpcode`.
- Python exceptions:
  - `IndexError` is modelled as status `Fault`, together with the state
    that had been reached.
  - The ALU's "Unsupported ALU operation" is modelled as
    `AluErr(UnsupportedOperation)`. The loop only ever calls the ALU with
    "CMP", so inside a run this error cannot occur.
- Machine.Run: `run` can loop forever (via CALL, JEQ or JNE). The model
  runs for at most `fuel` iterations and reports `OutOfFuel` when the
  budget is used up. Non-termination itself is not modelled.
- Cpu.CPU.Run: the method loops at most `fuel` times. It does not loop
  forever as the Python loop can.
