# A verified model of the CPU emulator in cpu.py

`cpu.py` emulates a small stored-program machine with these parts:
- 256 memory cells.
- 8 registers. Register 7 is the stack pointer.
- A program counter.
- A flags byte.
- A running flag.

Its `CPU` class holds this state. It fills memory with a program, then runs a fetch-decode-execute loop.

On each pass, the loop does three things:
1. It reads the opcode at `pc` and the two bytes after it.
2. It looks the opcode up in a table of nine instructions: LDI, PRN, HLT, MUL, CALL, CMP, JMP, JEQ and JNE.
3. It calls that instruction, which changes registers, memory, flags or `pc`.

The loop repeats until HLT clears the running flag.

The project has four modules, in four files:

- `isa.dfy`, module `Isa`:
  - The nine opcodes, and `Decode`, the table lookup.
  - `Fault`, which names each way a step can fail: an unknown opcode, a memory address or register index out of range, or an unsupported ALU operation.
- `semantics.dfy`, module `Semantics`:
  - The machine state as a value (`State`), and one function per instruction.
  - The ALU, one step (`Step`), and the run loop (`Run`) with a fuel bound.
  - Every operation returns the new state together with the fault that stopped it, if any. A fault keeps whatever the operation had already changed, as the source does when an exception escapes part-way through.
- `properties.dfy`, module `Properties`: what each instruction, the ALU, a step and the run loop promise, proved about those functions. The module also includes an example program (LDI R0,8; LDI R1,9; MUL R0,R1; PRN R0; HLT) that prints 72 and halts.
- `cpu.dfy`, module `Cpu`: class `Machine`, the CPU class itself.
  - Memory and registers are arrays updated in place.
  - `pc`, `fl`, `running` and the printed output are fields.
  - Each instruction method, and `Alu`, `Load`, `Execute`, `Step` and `Run`, ensures that the state it leaves and the fault it reports are exactly what the `Semantics` function for the same operation gives.
  - `RamRead` and `RamWrite` have no `Semantics` counterpart. Their contracts state directly which cell they read or write, and when they fault.

The model follows what the code does, including where a reader of an 8-bit machine might expect otherwise:
- A reader might expect 8-bit registers. The code keeps unbounded integers in registers and cells, and ADD and MUL do not wrap modulo 256.
- A reader might expect the stack pointer (register 7) to start at a high address. The code starts it at 0.
- A reader might expect an explicit "no comparison yet" flags state. The code starts the flags byte at 0. That value is none of CMP's results (4, 2 and 1), so before any CMP, JEQ never jumps and JNE always does.
- A reader might expect a program longer than memory to be rejected before anything is written. The code writes the first 256 values, then fails at the write to address 256.
- A reader might expect a separate stack-overflow check. The code has none. A stack pointer below 0 indexes memory from its end (cpu.py:49), and only an index of 256 or more, or below -256, raises an IndexError. The model faults at every address outside 0..255 (see "## Left out").

## Model

| member | source | states |
|---|---|---|
| `Isa.OpCode` | cpu.py:78-88 | each instruction's opcode is one of the nine keys of the dispatch table and fits in a byte |
| `Isa.Decode` | cpu.py:172 | the lookup succeeds exactly for the nine keys, and what it returns has that opcode |
| `Isa.DecodeOpCode` | cpu.py:78-88 | decoding an instruction's opcode gives back that instruction |
| `Isa.OpCodeInjective` | cpu.py:78-88 | two instructions share an opcode only if they are the same instruction |
| `Semantics.Initial` | cpu.py:19-28 | the state the constructor builds: 256 zero cells, 8 zero registers (so the stack pointer is 0), pc 0, flags 0, running, nothing printed |
| `Semantics.Load` | cpu.py:96-110 | placing a parsed program: cell k holds the program's value number k, later cells are kept, nothing else changes, and the operation faults at address 256 exactly when the program has more than 256 values |
| `Semantics.CmpFlag` | cpu.py:124-133 | the flag is 4 iff a < b, 2 iff a > b, 1 iff a == b |
| `Semantics.Alu` | cpu.py:116-135 | memory and sizes are kept, only registers and flags can change, and a fault changes nothing |
| `Semantics.Ldi` | cpu.py:30-33 | memory and register sizes, output and running flag are kept |
| `Semantics.Prn` | cpu.py:35-39 | sizes and running flag are kept |
| `Semantics.Hlt` | cpu.py:41-43 | the running flag is cleared, output kept |
| `Semantics.Call` | cpu.py:45-51 | sizes, output and running flag are kept |
| `Semantics.Mul` | cpu.py:53-55 | sizes, output, running flag, memory and flags are kept |
| `Semantics.Jmp` | cpu.py:57-59 | only pc can change |
| `Semantics.Jeq` | cpu.py:61-66 | only pc can change |
| `Semantics.Jne` | cpu.py:68-73 | only pc can change |
| `Semantics.Cmp` | cpu.py:75-77 | sizes, output, running flag, memory and every register are kept |
| `Semantics.Execute` | cpu.py:78-88 | only HLT clears the running flag; only PRN changes the output, and then only by extending it |
| `Semantics.Step` | cpu.py:166-175 | sizes are kept, output only grows, and a step never sets the running flag |
| `Semantics.Run` | cpu.py:163-178 | sizes are kept, output only grows, running is never set again once clear, and a stopped machine is left as it is |
| `Properties.LdiLoadsRegister` | cpu.py:30-33 | LDI a b sets register a to b and pc to pc + 3, and changes no other register, memory, flags, running flag or output; a bad index faults and changes nothing |
| `Properties.PrnPrintsRegister` | cpu.py:35-39 | PRN a appends register a to the output, pc goes up by exactly 2, and registers, memory and flags are unchanged |
| `Properties.HltStopsTheLoop` | cpu.py:41-43 | HLT only clears the running flag (pc unchanged), and the run loop then makes no further step for any fuel |
| `Properties.MulMultiplies` | cpu.py:53-55 | register a becomes a * b with no wrap-around; b (when b != a) and all other registers, memory and flags are kept; pc goes up by 3; a fault changes nothing |
| `Properties.CmpComparesRegisters` | cpu.py:75-77 | the flags are exactly one of 4/2/1 matching <, >, ==; no register or memory changes; pc goes up by 3 |
| `Properties.JmpJumps` | cpu.py:57-59 | JMP a sets pc to register a and changes nothing else; a bad index faults |
| `Properties.ExactlyOneConditionalJumps` | cpu.py:61-73 | for any flags value exactly one of JEQ and JNE jumps like JMP, and the other only adds 2 to pc |
| `Properties.InitialFlagsNeverEqual` | cpu.py:27 | with the initial flags 0, JEQ never jumps and JNE always does |
| `Properties.CallPushesReturnAddress` | cpu.py:45-51 | CALL lowers register 7 by exactly 1, stores pc + 2 at the new register 7, sets pc to register a read after the decrement, and leaves every other register and cell alone |
| `Properties.CallStackFault` | cpu.py:45-49 | a stack pointer that would leave memory faults after the decrement, which stays; the initial stack pointer is 0 |
| `Properties.CallRegisterFault` | cpu.py:45-51 | a bad register index faults after the decrement and the push, with pc unchanged |
| `Properties.AluAdds` | cpu.py:119-120 | "ADD" adds register b to register a without wrap-around and changes no other register, nor the flags; a register index out of range (a checked first) faults and changes nothing |
| `Properties.AluRejectsUnknownOperation` | cpu.py:134-135 | an operation name faults with `UnsupportedOperation`, nothing changed, exactly when it is not "ADD", "MUL" or "CMP" |
| `Properties.StepFetchFault` | cpu.py:168-170 | a pc whose three-byte window leaves memory faults at the first such address, before any change |
| `Properties.StepDecodesWindow` | cpu.py:168-175 | opcode and operands come from ram[pc], ram[pc+1], ram[pc+2]; an opcode outside the table faults before any change; a known one runs its table entry |
| `Properties.RunSplit` | cpu.py:166-175 | running m + n passes is running m passes and then n more from where they stopped |
| `Properties.RunFinal` | cpu.py:166 | after a fault or a cleared running flag, more fuel changes nothing |
| `Properties.RunContinues` | cpu.py:166 | a run that stopped still running only ran out of fuel: one more unit of fuel is one more step |
| `Properties.LdiThenPrn` | cpu.py:30-39 | LDI a v followed by PRN a prints v |
| `Properties.MultiplyProgramPrints72` | cpu.py:163-178 | the five-instruction multiply program, loaded into a new machine, prints exactly 72 and halts for any fuel of 5 or more |
| `Cpu.Machine.Model` | cpu.py:22-28 | the fields give a state with 256 cells and 8 registers |
| `Cpu.Machine.constructor` | cpu.py:19-28 | zeroed memory and registers, pc 0, flags 0, running, nothing printed |
| `Cpu.Machine.Load` | cpu.py:96-110 | the in-place loop leaves exactly the state and fault of `Semantics.Load` |
| `Cpu.Machine.RamRead` | cpu.py:157-158 | returns the cell at an address in range, and faults exactly for an address out of range |
| `Cpu.Machine.RamWrite` | cpu.py:160-161 | writes exactly that cell, or faults for an address out of range and writes nothing |
| `Cpu.Machine.Alu` | cpu.py:116-135 | updates registers and flags in place exactly as `Semantics.Alu` |
| `Cpu.Machine.Ldi` | cpu.py:30-33 | exactly the state and fault of `Semantics.Ldi` |
| `Cpu.Machine.Prn` | cpu.py:35-39 | exactly the state and fault of `Semantics.Prn` |
| `Cpu.Machine.Hlt` | cpu.py:41-43 | exactly the state of `Semantics.Hlt` |
| `Cpu.Machine.Call` | cpu.py:45-51 | exactly the state and fault of `Semantics.Call`, including the reads and writes a fault interrupts |
| `Cpu.Machine.Mul` | cpu.py:53-55 | exactly the state and fault of `Semantics.Mul` |
| `Cpu.Machine.Jmp` | cpu.py:57-59 | exactly the state and fault of `Semantics.Jmp` |
| `Cpu.Machine.Jeq` | cpu.py:61-66 | exactly the state and fault of `Semantics.Jeq` |
| `Cpu.Machine.Jne` | cpu.py:68-73 | exactly the state and fault of `Semantics.Jne` |
| `Cpu.Machine.Cmp` | cpu.py:75-77 | exactly the state and fault of `Semantics.Cmp` |
| `Cpu.Machine.Execute` | cpu.py:78-88 | dispatching an instruction gives exactly `Semantics.Execute` |
| `Cpu.Machine.Step` | cpu.py:166-175 | one fetch, decode and execute gives exactly `Semantics.Step` |
| `Cpu.Machine.Run` | cpu.py:163-178 | the while loop gives exactly `Semantics.Run` for the same fuel |

## Left out

- Reading the program file (cpu.py:90-114) is left out: checking the command-line arguments, opening the file, reporting a missing file, and parsing each line (dropping the text after `#`, skipping blank lines, reading binary digits). These are I/O and Python's integer parser. Only putting the parsed values into memory is modelled.
- `trace` (cpu.py:137-155) prints diagnostics and is left out.
- Console output is left out. PRN's `print` is modelled as appending to the `output` sequence.
- Process exit is left out. `sys.exit(1)` and the exceptions that end the process are modelled as a `Fault` value returned to the caller.
- Semantics.Run: the source loop may never terminate. `Run` takes a fuel bound, and a run that uses up its fuel is returned with the running flag still set.
- Semantics.Step: Python also accepts negative indices, counting from the end of the list. The model treats every address outside 0..255 and every register index outside 0..7 as a fault. This applies in `Step`, `Alu`, `Call` and the other instructions.
- Semantics.Call: one consequence of the rule above is the first CALL before register 7 is set. Python would lower register 7 to -1 and write the return address into the last cell. The model faults at address -1 instead, after the decrement.
- The `else` branch of the run loop (cpu.py:176-178) is not modelled, because it cannot be reached: every value in the dispatch table is a function, which Python treats as true. An unknown opcode fails earlier, at the lookup.
- The `sp` field (cpu.py:26) always holds 7, so it is the constant `SP`.
- ADD is reachable only through the ALU. No opcode in the table selects it.
