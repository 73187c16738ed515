# 6502 CPU emulator core, modelled and verified in Dafny

This project models the execution core of a small 6502 emulator written in
C++ (`main.cpp`). It has two records:

- **`Mem`** is a 64 KiB byte array. It supports zero-filling, bounds-asserted
  single-byte reads and writes, and a little-endian 16-bit store that debits
  two cycles.
- **`CPU`** holds the 16-bit `PC` and `SP`, the 8-bit `A`, `X` and `Y`, and
  seven one-bit flags (C, Z, I, D, B, V, N). Its operations are:
  - `Reset`;
  - the fetch primitives `FetchByte` and `FetchWord`, which consume the
    instruction stream at `PC`;
  - the zero-page read `ReadByte`;
  - the flag update `LDASetStatus`;
  - `Execute`, a fetch/decode/dispatch loop over a 32-bit unsigned cycle
    budget. It handles LDA immediate (0xA9), LDA zero page (0xA5),
    LDA zero page,X (0xB5) and JSR (0x20). Any other opcode goes to a
    do-nothing default.

The project has five modules:

- `Types` (`types.dfy`) gives the C++ widths `u8`, `u16` and `u32` as ranges
  of `int`. It also gives the wrap-around arithmetic the code relies on:
  `PC++`, `ZeroPageAddress += X`, `PC - 1` converted to `uint16_t`, and
  `Cycles -= k`.
- `Memory` (`memory.dfy`) is the class `Mem` over an `array<u8>` of
  65536 bytes.
- `Semantics` (`semantics.dfy`) is a reference definition written as pure
  functions:
  - a `Machine` value bundles the registers, the memory and the remaining
    cycle budget;
  - `Step` gives the effect of one whole instruction as a table per opcode;
  - `Run` is the `while (Cycles > 0)` loop with a fuel bound.

  It also holds the lemmas about single instructions and about the loop.
- `Processor` (`processor.dfy`) is the class `CPU`. Its fields and methods
  follow the C++ statement by statement. `Step` is one loop iteration and
  `Execute` is the loop. Each is proved to produce exactly the state that
  `Semantics.Step` and `Semantics.Run` describe. The cycle counter, a
  by-reference parameter in C++, is an in-parameter `Cycles`, and its new
  value is returned as `cycles'`.
- `Demo` (`demo.dfy`) is the program in `main`. It proves the final state of
  that run. It also shows that a second `Reset` changes nothing.

What the code does, as opposed to what one might expect of it:

- In the sample program, JSR stores the value of `PC - 1` at the moment of
  the store. `PC` then points just past the operand (0xFFFF), so the value
  stored is 0xFFFE. Memory at 0x0100 and 0x0101 therefore ends up as 0xFE
  and 0xFF. It does not hold 0x4241, the value sometimes given for this
  program.
- The last cycle of the budget of 9 fetches the 0x00 at 0x4244 through the
  default case, so the final `PC` is 0x4245, not 0x4244.
- The model follows the code in both points (`Demo.SampleTrace`).
- JSR increments `SP` by one after storing two bytes. A second JSR therefore
  overwrites the high byte of the first return address
  (`Semantics.NestedJsrOverwrites`).
- The cycle counter is unsigned. An instruction that starts with fewer
  cycles left than it costs wraps the counter to about 2^32, so the loop
  keeps running (`Semantics.OvershootWraps`). For this reason `Execute`
  cannot be shown to terminate in general, and the model bounds it with
  fuel.
- `ReadByte` tests `Address >= MAX_MEM` and throws if it holds. Its address
  is 8 bits wide, so the test never fires. The model keeps the branch and
  proves it dead.

## Model

| member | source | states |
|---|---|---|
| `Types.Add8` | main.cpp:180-181 | `uint8_t` addition: the sum wraps modulo 256 |
| `Types.Add16` | main.cpp:104 | `uint16_t` increment and `PC - 1` conversion: the sum wraps modulo 2^16 |
| `Types.Sub32` | main.cpp:106 | `Cycles -= k` on `uint32_t`: the difference wraps modulo 2^32, so 0 - 1 becomes 0xFFFFFFFF |
| `Memory.Mem.Initialise` | main.cpp:26-34 | afterwards all 65536 bytes are 0 |
| `Memory.Mem.Read` | main.cpp:39-46 | returns the stored byte; the assert becomes the precondition Address < 65536 |
| `Memory.Mem.Write` | main.cpp:51-59 | exactly the byte at Address changes, to the given value; requires Address < 65536 |
| `Memory.Mem.WriteWord` | main.cpp:62-66 | Data[a] becomes v & 0xFF and Data[a+1] becomes v >> 8; every other byte is kept; 2 cycles are debited; requires a + 1 < 65536 |
| `Processor.CPU.Reset` | main.cpp:83-94 | from any state: PC = 0xFFFC, SP = 0x0100, A = X = Y = 0, all seven flags clear, memory all zero |
| `Processor.CPU.FetchByte` | main.cpp:100-109 | returns the old mem[PC]; PC becomes (PC + 1) mod 2^16; 1 cycle debited; memory and every other field unchanged |
| `Processor.CPU.FetchWord` | main.cpp:111-126 | returns mem[PC] + 256 * mem[(PC + 1) mod 2^16]; PC advances by 2 mod 2^16; 2 cycles debited; memory unchanged |
| `Processor.CPU.ReadByte` | main.cpp:132-143 | returns mem[Address] and debits 1 cycle; PC and memory unchanged; the out-of-range throw is unreachable for an 8-bit address |
| `Processor.CPU.LDASetStatus` | main.cpp:153-158 | Z = (A == 0), N = bit 7 of A; no other field changes |
| `Processor.CPU.LdaImmediate` | main.cpp:166-171 | the LDA immediate case gives exactly the reference effect `Semantics.LoadImmediate` |
| `Processor.CPU.LdaZeroPage` | main.cpp:172-177 | the LDA zero page case gives exactly the reference effect `Semantics.LoadZeroPage` |
| `Processor.CPU.LdaZeroPageX` | main.cpp:178-185 | the LDA zero page,X case, with the 8-bit index add and its extra cycle, gives exactly `Semantics.LoadZeroPageX` |
| `Processor.CPU.Jsr` | main.cpp:186-192 | the JSR case gives exactly `Semantics.JumpToSubroutine` |
| `Processor.CPU.Step` | main.cpp:162-197 | one loop iteration (opcode fetch plus dispatch, with the default case as no change) leaves registers, memory and budget equal to `Semantics.Step` of the state before |
| `Processor.CPU.Execute` | main.cpp:161-199 | the final registers, memory, remaining budget and stop reason are those of `Semantics.Run` on the start state |
| `Semantics.LoadInstruction` | main.cpp:153-185 | each LDA form sets A to its byte (operand; mem[operand]; mem[(operand + X) mod 256]), Z iff A = 0, N iff A >= 0x80, PC + 2, and costs 2, 3 or 4 cycles; C, I, D, B, V, X, Y, SP and memory are untouched |
| `Semantics.ZeroPageXWraps` | main.cpp:178-183 | zero page,X with base 0xFF and X = 2 loads from address 0x01 |
| `Semantics.JsrInstruction` | main.cpp:186-192 | JSR sets PC to the operand word and SP to SP + 1; the two bytes at SP, SP+1 decode little-endian to (PC_after_operands - 1) mod 2^16; every other byte is kept; it costs 6 cycles; A, X, Y and the flags are unchanged |
| `Semantics.NestedJsrOverwrites` | main.cpp:186-192 | after two JSRs, SP has grown by 2 only, and the second return address's low byte sits where the first one's high byte was |
| `Semantics.JsrAtTopUndefined` | main.cpp:62-66 | a JSR with SP = 0xFFFF would store its high byte at 0x10000, outside the array, so it has no defined effect |
| `Semantics.UnhandledInstruction` | main.cpp:193-196 | an unrecognised opcode only advances PC by 1 and debits 1 cycle; registers, flags, SP and memory are unchanged |
| `Semantics.StepCost` | main.cpp:164-192 | every instruction debits exactly its cost-table entry: 2, 3, 4 and 6 cycles for the four opcodes, 1 for any other |
| `Semantics.OvershootWraps` | main.cpp:161-164 | an instruction started with fewer cycles left than it costs leaves the budget at 2^32 + left - cost, which is positive, so the loop goes on |
| `Semantics.RunStep` | main.cpp:162-198 | with budget and fuel left, the loop runs one whole instruction, then continues; the budget is tested only between instructions |
| `Semantics.RunStopped` | main.cpp:162 | the loop stops without running anything when the budget is 0, the fuel is spent, or a JSR would store out of bounds |
| `Semantics.RunStatus` | main.cpp:162 | Halted is reported exactly when the final budget is 0; the fuel and out-of-bounds stops leave a positive budget |
| `Semantics.RunFuelIrrelevant` | main.cpp:161-199 | once a run has stopped for a reason other than fuel, any extra fuel gives the same result |
| `Semantics.UnhandledRun` | main.cpp:162-196 | on memory without a handled opcode, a budget of n runs exactly n fetches: PC advances by n mod 2^16, registers, flags and memory are unchanged, and the budget ends at 0 |
| `Semantics.ResetThenRunZeros` | main.cpp:83-94 | after a reset, a budget of n cycles leaves PC = (0xFFFC + n) mod 2^16 and everything else in its reset state |
| `Demo.SampleTrace` | main.cpp:211-225 | the program of `main` runs as JSR, LDA #$84, then one unhandled 0x00; it halts with PC = 0x4245, SP = 0x0101, A = 0x84, N set, Z clear, and bytes 0xFE, 0xFF at 0x0100 and 0x0101 |
| `Demo.SampleRun` | main.cpp:205-229 | running `main`'s steps on a fresh Mem and CPU ends with status Halted, the final registers above, and those two stack bytes |
| `Demo.ResetTwice` | main.cpp:83-94 | a second Reset leaves the same registers and memory as the first |

## Left out

- The console message in the default case (main.cpp:195) is output only.
  The model treats that case as "no state change".
- The `assert`s of the two subscript operators would abort the process.
  They become preconditions (`Address < 65536`). Every caller meets them,
  because addresses come from 16-bit or 8-bit registers. Failing reads and
  writes are therefore not modelled as recoverable errors.
- The C++ bit-field layout of the flags is not modelled. Each flag is a
  `bool`, and the code never packs them into a status byte.
- Values before the first `Reset` are not modelled. The constructors of `Mem`
  and `CPU` make no promise about them, just as their C++ counterparts leave
  them uninitialised.
- Processor.CPU.Execute: it runs at most `fuel` instructions. This is
  weaker than the C++ loop, which runs until the budget reaches zero and
  need not terminate. The result also reports `OutOfFuel` when the bound is
  hit.
- Processor.CPU.Execute: it stops with `OutOfBounds` before a JSR whose
  `SP` is 0xFFFF. In C++ that JSR writes `Data[0x10000]`, which is
  undefined behaviour.
- `FetchWord` combines its two bytes with `|`. The model computes
  `lo + 256 * hi` instead, which is the same value because the bits do not
  overlap.
- `main`'s return value is not modelled. Only its calls are modelled, as
  `Demo.SampleRun`.
- Hardware behaviour the code does not have is left out. The model does not
  read the reset vector and does not push by decrementing SP, because the
  code does neither.
