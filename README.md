# LS-8 emulator core in Dafny

This project models the core of an LS-8 emulator. LS-8 is a small 8-bit teaching CPU: it has eight registers (R7 is the stack pointer, starting at `0xF4`), 256 memory cells, a program counter, a flags register `FL` and the staged operands `a` and `b`. Its fetch-decode-execute loop reads the opcode byte at pc. It takes `IR >> 6` as the operand count and stages that many following bytes into `a` and `b`. It then calls the handler that the branch table keys under that exact byte. A text loader writes one base-2 byte per program line into memory.

The model has two layers:

- `Machine` (machine.dfy) holds the machine state as a value (`State`) and defines one function per handler, together with the ALU, the operand staging (`Stage`), one cycle (`Step`) and the run loop (`Run`). Each of these returns either the new state or the `Fault` that the emulator would raise: an unknown opcode (a missing dictionary key), a bad register or memory index, `FL` unset at a conditional jump, an unsupported ALU operation, a negative shift count, or division by zero.
- `Cpu.CPU` (cpu.dfy) is the emulator as an object. It has the register file and memory as arrays and the scalar fields `pc`, `FL`, `ir`, `a`, `b` and `halted`. Every method updates the object in place, and each is proved to leave exactly the state, or raise exactly the fault, that the matching `Machine` function gives for the old state. `Run` is the `while not halted` loop, with one cancellation poll per cycle passed in as `polls`. `Load` is the line-parsing loop of the loader.

The other modules are:

- `Opcodes`: the fifteen opcode bytes of the branch table.
- `Bits`: Python's unbounded-integer `&`, `|`, `^`, `~`, `<<`, `>>` and `%`, which work as infinite two's complement and floor division.
- `Loader`: the program reader, including Python's `int(text, 2)`.
- `MachineLemmas`: the properties of the engine.

Registers and memory cells hold unbounded integers. The code never masks a result, so nothing wraps at 8 bits.

Points of the code that the model keeps as written:

- The branch table keys MUL at `0b10100010` (`0xA2`, cpu.py:31) and ST at `0b10000100` (`0x84`, cpu.py:36). `Opcodes` uses exactly these bytes.
- The `halted` flag is tested only at the loop head (cpu.py:176). The cycle that reads the stop key therefore still executes its instruction (`MachineLemmas.CancelledCycleStillRuns`).
- AND and ST never advance pc, and HLT does nothing. The model reproduces all three: `MachineLemmas.AndStep`, `MachineLemmas.StStep`, `MachineLemmas.HltStep` and `MachineLemmas.RunSpinsOnHlt`.

## Model

| member | source | states |
|---|---|---|
| Cpu.CPU.constructor | cpu.py:7-19 | A new CPU has 8 registers, all 0 except R7 = 0xF4. It has 256 zero memory cells, pc 0, FL, a and b unset, and is not halted. |
| MachineLemmas.InitialState | cpu.py:7-19 | The initial machine value has the same contents: registers 0 except SP = 0xF4, zero memory, pc 0, nothing staged, nothing printed. |
| Opcodes.EncodeDecode | cpu.py:21-37 | Every opcode is a byte, and looking it up in the branch table yields that opcode's handler. |
| Opcodes.DecodeEncode | cpu.py:21-37 | A byte that has a handler is the encoding of that handler's opcode. A byte has no handler exactly when no opcode encodes to it. |
| Opcodes.OperandCountIsArity | cpu.py:21-37 | For every table opcode, `IR >> 6` equals the number of operand bytes its handler reads. |
| Cpu.CPU.RamRead | cpu.py:164-165 | Returns the cell at the address. An address outside 0..255 is an index fault. |
| Machine.ReadRam | cpu.py:164-165 | Reading succeeds exactly for addresses 0..255 and gives that cell; any other address is a memory-index fault naming it. |
| Machine.WriteRam | cpu.py:167-168 | Writing succeeds exactly for addresses 0..255 and changes that one cell only. |
| Machine.RegIndex | cpu.py:39-200 | A staged operand names a register exactly when it is set and lies in 0..7; otherwise it is a register fault naming the operand. |
| Machine.GetReg | cpu.py:39-200 | Reading the register a staged operand names succeeds exactly when the operand is a register index. |
| Cpu.CPU.RamWrite | cpu.py:167-168 | Exactly one cell changes, to the given value. |
| MachineLemmas.ReadAfterWrite | cpu.py:164-168 | After a write, reading the same address gives the written value, and reading any other address gives the old contents. |
| Cpu.CPU.Alu | cpu.py:48-83 | The object changes exactly as `Machine.Alu` says: the tagged operation on registers a and b, or the matching fault. |
| MachineLemmas.AluTags | cpu.py:48-83 | The ten tag names are pairwise distinct. An `ir` that holds no tag is an unsupported ALU operation. |
| MachineLemmas.AluOtherOps | cpu.py:67-83 | For the tags no opcode reaches: NOT stores -x-1 and needs only register a. SHL and SHR fault on a negative count. SHL multiplies by 2^y and SHR rounds down. MOD faults on 0; otherwise it stores x - y · (x // y), which takes the divisor's sign. OR and XOR are the bitwise operations. Without register b, every operation except NOT faults. |
| MachineLemmas.CompareFlagCases | cpu.py:57-66 | The CMP flag is 1, 2 or 4 exactly when a = b, a > b or a < b respectively, and it is always one of those three. |
| Bits.BitwiseCommutes | cpu.py:67-72 | `&`, `\|` and `^` on unbounded integers are commutative. |
| Bits.BitwiseIdempotent | cpu.py:67-70 | `x & x == x` and `x \| x == x`. |
| Bits.XorSelf | cpu.py:71-72 | `x ^ x == 0`. |
| Bits.FloorMod | cpu.py:79-80 | Python's `x % y` is `x - y * (x // y)`, with `//` the quotient rounded toward negative infinity (`Bits.FloorDiv`). It lies in 0..y-1 for a positive divisor and in y+1..0 for a negative one. |
| Bits.BitAndZero | cpu.py:67-68 | `x & 0 == 0`, negative x included. |
| Bits.BitAndBounded | cpu.py:67-68 | For non-negative operands, `x & y` lies between 0 and x. |
| Bits.ShiftRightFloors | cpu.py:77-78 | `x >> n` is the greatest q with q·2^n <= x, negative x included. |
| Cpu.CPU.Add | cpu.py:39-42 | The object changes exactly as `Machine.Add` says. |
| MachineLemmas.AddEffect | cpu.py:39-42 | The handler sets register a to a + b with no masking, adds 3 to pc and changes nothing else. It succeeds exactly when both operands name registers. |
| MachineLemmas.AddStep | cpu.py:39-42 | The same effect as one whole cycle, with the register indices taken from the two bytes after the opcode. A bad index in the first byte faults with that index. |
| Cpu.CPU.And8 | cpu.py:44-46 | The object changes exactly as `Machine.And` says. |
| MachineLemmas.AndEffect | cpu.py:44-46 | Register a becomes a & b and pc stays where it is. |
| MachineLemmas.AndStep | cpu.py:44-46 | As one cycle: memory and pc are unchanged, so the same AND is fetched again. |
| Cpu.CPU.Mul | cpu.py:140-143 | The object changes exactly as `Machine.Mul` says. |
| MachineLemmas.MulEffect | cpu.py:140-143 | Register a becomes a · b with no masking, pc increases by 3, and nothing else changes. |
| MachineLemmas.MulStep | cpu.py:140-143 | The same effect as one cycle. It succeeds exactly when both operand bytes name registers. |
| Cpu.CPU.Cmp8 | cpu.py:90-93 | The object changes exactly as `Machine.Cmp` says. |
| MachineLemmas.CmpEffect | cpu.py:90-93 | FL becomes the comparison flag of registers a and b, and pc increases by 3. Registers and memory are unchanged. |
| MachineLemmas.CmpStep | cpu.py:90-93 | The same effect as one cycle. It succeeds exactly when both operand bytes name registers. |
| Cpu.CPU.Call | cpu.py:85-88 | The object changes exactly as `Machine.Call` says. |
| MachineLemmas.CallEffect | cpu.py:85-88 | SP decreases by 1, pc + 2 is stored at the new SP, and pc becomes register a as read after the decrement. |
| MachineLemmas.CallStep | cpu.py:85-88 | The same effect as one cycle. |
| Cpu.CPU.Ret | cpu.py:170-172 | The object changes exactly as `Machine.Ret` says. |
| MachineLemmas.RetEffect | cpu.py:170-172 | pc becomes the cell at SP, and SP increases by 1. |
| MachineLemmas.RetStep | cpu.py:170-172 | The same effect as one cycle. |
| MachineLemmas.CallThenRet | cpu.py:85-88 | After CALL into a routine that starts with RET, pc is the call site + 2 and every register, SP included, is restored. The only memory change is the return address below the old SP. |
| Cpu.CPU.Hlt | cpu.py:95-100 | Nothing changes. |
| MachineLemmas.HltStep | cpu.py:95-100 | A HLT cycle changes only `ir`. pc stays on the HLT. |
| MachineLemmas.RunSpinsOnHlt | cpu.py:95-100 | Without cancellation, a machine at HLT stays there for every cycle and never stops on its own. |
| Cpu.CPU.Jeq | cpu.py:102-107 | The object changes exactly as `Machine.Jeq` says. |
| Cpu.CPU.Jne | cpu.py:109-114 | The object changes exactly as `Machine.Jne` says. |
| Bits.BitAndOne | cpu.py:102-114 | `x & 1` equals `LowBit(x)`, the parity of x, negative x included. JEQ and JNE test bit 0 of FL through `LowBit`. |
| MachineLemmas.JumpsComplement | cpu.py:102-114 | JEQ jumps to register a exactly when bit 0 of FL is set, and otherwise adds 2 to pc. JNE does the exact opposite. With FL unset, both fault. |
| MachineLemmas.JeqStep | cpu.py:102-107 | JEQ as one cycle: the new pc is register a if FL is odd, else pc + 2. Registers and memory are unchanged. |
| MachineLemmas.JneStep | cpu.py:109-114 | JNE as one cycle: the new pc is pc + 2 if FL is odd, else register a. |
| MachineLemmas.CmpThenBranch | cpu.py:102-114 | After CMP x, y, a JEQ branches exactly when x = y and a JNE exactly when x ≠ y. Otherwise both fall through to the next instruction. |
| Cpu.CPU.Jmp | cpu.py:116-118 | The object changes exactly as `Machine.Jmp` says. |
| MachineLemmas.JmpStep | cpu.py:116-118 | pc becomes register a. |
| Cpu.CPU.Ldi | cpu.py:136-138 | The object changes exactly as `Machine.Ldi` says. |
| MachineLemmas.LdiStep | cpu.py:136-138 | Register a becomes the immediate byte, and pc increases by 3. |
| Cpu.CPU.Pop | cpu.py:145-150 | The object changes exactly as `Machine.Pop` says. |
| MachineLemmas.PopEffect | cpu.py:145-150 | Register a becomes the cell at SP, then SP increases by 1 and pc by 2. |
| MachineLemmas.PopStep | cpu.py:145-150 | The same effect as one cycle. |
| Cpu.CPU.Prn | cpu.py:152-155 | The object changes exactly as `Machine.Prn` says. |
| MachineLemmas.PrnStep | cpu.py:152-155 | Register a is appended to the output, and pc increases by 2. |
| Cpu.CPU.Push | cpu.py:157-162 | The object changes exactly as `Machine.Push` says. |
| MachineLemmas.PushEffect | cpu.py:157-162 | SP decreases by 1, then register a (read after the decrement) is stored at the new SP, and pc increases by 2. |
| MachineLemmas.PushStep | cpu.py:157-162 | The same effect as one cycle. |
| MachineLemmas.PushThenPop | cpu.py:145-162 | After PUSH r then POP r, the register file is exactly as before, SP included, and pc has moved 4. The only memory change is the pushed cell below the old SP. |
| Cpu.CPU.St | cpu.py:199-200 | The object changes exactly as `Machine.St` says. |
| MachineLemmas.StStep | cpu.py:199-200 | Memory at register b becomes register a, and pc does not move. It succeeds exactly when register b holds an address. |
| Cpu.CPU.SetAb | cpu.py:191-197 | The object changes exactly as `Machine.Stage` says. |
| MachineLemmas.StageLeavesOperands | cpu.py:191-197 | Any operand count other than 1 or 2 leaves `a` and `b` untouched. |
| MachineLemmas.StepStagesOperands | cpu.py:184-197 | After a cycle, `a` is the byte after the opcode when the opcode takes one or two operands, `b` is the byte after that when it takes two, and otherwise both keep their old values. |
| MachineLemmas.DispatchKeepsOperands | cpu.py:39-200 | No handler writes `a` or `b`. |
| Cpu.CPU.Step | cpu.py:183-187 | One cycle changes the object exactly as `Machine.Step` says. |
| MachineLemmas.StepDecodes | cpu.py:183-187 | A cycle at a table opcode runs exactly that opcode's handler on the staged state. |
| MachineLemmas.StepUnknownOpcode | cpu.py:183-187 | A byte with no handler is never executed. The cycle faults, with an unknown-opcode fault once its operand bytes are readable. |
| MachineLemmas.ZeroIsNotAnOpcode | cpu.py:183-187 | Fetching the byte 0 is an unknown-opcode fault. |
| Cpu.CPU.Run | cpu.py:174-187 | The loop's final state, halted flag, completed cycle count and any fault are exactly what `Machine.Run` gives for the initial state and the polls. |
| MachineLemmas.CancelledCycleStillRuns | cpu.py:176-187 | If the stop key is first read in cycle k, exactly k + 1 instructions run, and the loop stops halted in the state k + 1 cycles produce. |
| MachineLemmas.HaltTail | cpu.py:95-100 | One HLT cycle leaves registers, output and pc as they were. |
| MachineLemmas.PrintTail | cpu.py:152-155 | PRN R0; HLT prints R0 once and leaves pc on the HLT, registers unchanged. |
| MachineLemmas.AddTail | cpu.py:39-42 | ADD R0,R1; PRN R0; HLT over three cycles stores and prints R0 + R1 and leaves pc on the HLT. |
| MachineLemmas.PushPopRegisters | cpu.py:145-162 | Decrementing SP, writing a register with its own value and incrementing SP gives back the register file it started from. |
| MachineLemmas.SumAndPrint | cpu.py:174-187 | ADD R0,R1; PRN R0; HLT, with the stop key read in the third cycle: R0 holds the sum, the sum has been printed once, and pc rests on the HLT. |
| MachineLemmas.SampleMachine | cpu.py:7-19 | The sample program LDI R0,8; LDI R1,9; ADD R0,R1; PRN R0; HLT sits at addresses 0..11 of an otherwise initial machine, with pc 0 and nothing printed. |
| MachineLemmas.LdiFirst | cpu.py:136-138 | Running n + 1 cycles from an LDI is running n cycles from the state the LDI leaves. |
| MachineLemmas.SampleLoads | cpu.py:136-138 | The two LDIs of the sample leave R0 = 8 and R1 = 9, memory and output as they were, and pc on the ADD at address 6. |
| MachineLemmas.SampleCycles | cpu.py:183-187 | Five cycles of the sample program succeed: R0 holds 17, 17 has been printed once, and pc rests on the HLT at address 11. |
| MachineLemmas.SampleProgram | cpu.py:174-187 | The whole sample program with the stop key read in the fifth cycle: the loop stops halted after exactly five cycles, with R0 = 17, output `[17]` added, and pc on the HLT. |
| Cpu.CPU.Load | cpu.py:123-134 | The loop leaves memory exactly as `Loader.Load` says, or reports the same error. |
| Loader.LoadWritesProgram | cpu.py:123-134 | Loading succeeds exactly when every code line parses and the program fits in memory. The program bytes then sit at addresses 0, 1, 2, … and the cells after them keep their contents. |
| Loader.LoadFromWritesProgram | cpu.py:127-134 | The same, for the loop resumed at any address. |
| Loader.SkippedLineIrrelevant | cpu.py:129-130 | Inserting a `#` line or a blank line anywhere does not change the result, error or not. |
| Loader.ParseEightBits | cpu.py:132-133 | A line that starts with eight binary digits loads as the byte those digits spell, a value in 0..255, whatever follows them. |
| Loader.BitsValueBound | cpu.py:133 | n binary digits spell a value below 2^n. |
| Loader.StripKeeps | cpu.py:133 | A non-empty text that neither starts nor ends with whitespace is its own stripped form. |
| Loader.ParseBinaryDigits | cpu.py:133 | `int(d, 2)` of a run of binary digits is the number they spell. |
| Loader.ParseBinaryNegative | cpu.py:133 | A `-` followed by binary digits parses as the negated number. |
| Loader.ParseBinaryPositive | cpu.py:133 | A `+` followed by binary digits parses as the number. |
| Loader.ParseBinaryBlank | cpu.py:133 | A text that is empty after stripping whitespace does not parse. |
| Loader.Head8 | cpu.py:132 | The field is the first eight characters of the line, or the whole line if it is shorter. |

## Left out

- Keyboard polling (cpu.py:177-182) reads the console. It is an input `polls` with one boolean per cycle, saying whether the key `x` was read. The loop also ends when the polls run out, which stands for a run that is not finished yet.
- Every `print`, the `sys.exit(1)` after the loop, and `trace` are console or process I/O. PRN appends to an `out` sequence instead.
- `open(filename + '.ls8')` is file I/O. `Load` takes the file's lines as a sequence of strings.
- ls8.py, the entry-point script, is not part of this model.
- Python's negative list indices: a register operand or address outside its range is a fault in the model. Python agrees for indices that are too large, for indices below minus the list's length (such as `ram[-257]` or `register[-9]`) and for an unset `None` operand, which raises a TypeError. Only an index in -length..-1, such as SP = -1, would be wrapped by Python to the end of the list; the model faults on it instead.
- After a fault, the model gives only the fault. It does not give the partly updated state that Python would leave behind, such as SP already decremented by CALL.
- Cpu.CPU.Alu: the `ir` register holds an ALU tag as the operation it names (`Machine.AluName` gives the string), so a string naming no ALU operation cannot be represented. The handlers only ever store the four reachable names.
- Machine.Ldi: the source would store `None` when `b` was never staged. The model reports it as `UnsetOperand`. This cannot happen through `Step`, because LDI's operand count is 2.
- Loader.ParseBinary: `int(text, 2)` is modelled for ASCII characters only. Python also strips Unicode spaces and accepts non-ASCII decimal digits (`int('１０', 2) == 2`), where the model gives no value.
