/** The processor `CPU`: registers and flags as mutable fields, the fetch and
    read primitives, the status update and the fetch/decode/dispatch loop.
    The cycle counter, passed by reference in the source, is an in-parameter
    `Cycles` with the updated value returned as `cycles'`. */
module Processor {
  import opened Types
  import opened Memory
  import opened Semantics

  class CPU {
    var PC: u16
    var SP: u16
    var A: u8
    var X: u8
    var Y: u8
    var C: bool  // carry
    var Z: bool  // zero
    var I: bool  // interrupt disable
    var D: bool  // decimal mode
    var B: bool  // break command
    var V: bool  // overflow
    var N: bool  // negative

    /** A processor whose registers, like a C++ `CPU` before `Reset`, hold
        unspecified values. */
    constructor ()
    {
    }

    /** The registers and flags as a value. */
    function Regs(): CpuState
      reads this
    {
      CpuState(PC, SP, A, X, Y, C, Z, I, D, B, V, N)
    }

    /** The whole machine: this processor, `memory` and a cycle budget. */
    ghost function Snapshot(memory: Mem, cycles: u32): (m: Machine)
      reads this, memory.Data
      ensures memory.Valid() ==> WellFormed(m)
    {
      Machine(Regs(), memory.Data[..], cycles)
    }

    /** Establishes the start state, whatever the state before: PC = 0xFFFC,
        SP = 0x0100, registers and flags zero, memory zero-filled. The result
        does not depend on the prior state, so a second reset changes nothing. */
    method Reset(memory: Mem)
      requires memory.Valid()
      modifies this, memory.Data
      ensures Regs() == ResetState
      ensures memory.Data[..] == Zeros()
    {
      PC := 0xFFFC;
      SP := 0x0100;
      C, Z, I, D, B, V, N := false, false, false, false, false, false, false;
      A, X, Y := 0, 0, 0;
      memory.Initialise();
    }

    /** Consumes the byte at PC: returns it, moves PC on by one (wrapping at
        0xFFFF) and debits one cycle. Nothing else changes. */
    method FetchByte(Cycles: u32, memory: Mem) returns (data: u8, cycles': u32)
      requires memory.Valid()
      modifies this`PC
      ensures data == memory.Data[old(PC)]
      ensures PC == Add16(old(PC), 1)
      ensures cycles' == Sub32(Cycles, 1)
    {
      data := memory.Read(PC);
      PC := Add16(PC, 1);
      cycles' := Sub32(Cycles, 1);
    }

    /** Consumes two bytes at PC, low byte first: returns
        mem[PC] + 256 * mem[PC + 1], moves PC on by two and debits two cycles.
        The source combines the bytes with `|`; their bits are disjoint, so
        that is the sum. */
    method FetchWord(Cycles: u32, memory: Mem) returns (data: u16, cycles': u32)
      requires memory.Valid()
      modifies this`PC
      ensures data == memory.Data[old(PC)] as int + 0x100 * memory.Data[Add16(old(PC), 1)] as int
      ensures PC == Add16(old(PC), 2)
      ensures cycles' == Sub32(Cycles, 2)
    {
      var lo := memory.Read(PC);
      PC := Add16(PC, 1);
      var hi := memory.Read(PC);
      data := lo as int + 0x100 * hi as int;
      PC := Add16(PC, 1);
      cycles' := Sub32(Cycles, 2);
    }

    /** Reads a zero-page byte without moving PC and debits one cycle. The
        source's out-of-range check can never fire for an 8-bit address. */
    method ReadByte(Cycles: u32, Address: u8, memory: Mem) returns (data: u8, cycles': u32)
      requires memory.Valid()
      ensures data == memory.Data[Address]
      ensures cycles' == Sub32(Cycles, 1)
    {
      if Address >= MAX_MEM {
        assert false;
      }
      data := memory.Read(Address);
      cycles' := Sub32(Cycles, 1);
    }

    /** Sets Z when A is zero and N from bit 7 of A. */
    method LDASetStatus()
      modifies this`Z, this`N
      ensures Z == (A == 0)
      ensures N == (A >= 0x80)
    {
      Z := A == 0;
      N := (A as bv8) & 0x80 != 0;
    }

    /** One iteration of the loop in `Execute`: fetch an opcode and run its
        handler. The new state is the reference semantics of one instruction. */
    method Step(Cycles: u32, memory: Mem, ghost m: Machine) returns (cycles': u32)
      requires memory.Valid()
      requires Snapshot(memory, Cycles) == m && StepDefined(m)
      modifies this, memory.Data
      ensures Snapshot(memory, cycles') == Semantics.Step(m)
    {
      var cycles := Cycles;
      var instruction;
      instruction, cycles := FetchByte(cycles, memory);
      assert Snapshot(memory, cycles) == AfterOpcode(m);
      if instruction == INS_LDA_IM {
        cycles' := LdaImmediate(cycles, memory, m);
      } else if instruction == INS_LDA_ZP {
        cycles' := LdaZeroPage(cycles, memory, m);
      } else if instruction == INS_LDA_ZPX {
        cycles' := LdaZeroPageX(cycles, memory, m);
      } else if instruction == INS_JSR {
        cycles' := Jsr(cycles, memory, m);
      } else {
        // The default case only reports the opcode on the console.
        cycles' := cycles;
      }
    }

    /** Case LDA immediate, entered with the opcode of `m` fetched: A takes
        the operand byte. */
    method LdaImmediate(Cycles: u32, memory: Mem, ghost m: Machine) returns (cycles': u32)
      requires memory.Valid() && WellFormed(m) && Opcode(m) == INS_LDA_IM
      requires Snapshot(memory, Cycles) == AfterOpcode(m)
      modifies this
      ensures Snapshot(memory, cycles') == LoadImmediate(m)
    {
      var value;
      value, cycles' := FetchByte(Cycles, memory);
      A := value;
      LDASetStatus();
      assert cycles' == LoadImmediate(m).cycles;
      assert Regs() == LoadImmediate(m).cpu;
    }

    /** Case LDA zero page: A takes the byte at the zero-page operand. */
    method LdaZeroPage(Cycles: u32, memory: Mem, ghost m: Machine) returns (cycles': u32)
      requires memory.Valid() && WellFormed(m) && Opcode(m) == INS_LDA_ZP
      requires Snapshot(memory, Cycles) == AfterOpcode(m)
      modifies this
      ensures Snapshot(memory, cycles') == LoadZeroPage(m)
    {
      var zeroPageAddress, cycles;
      zeroPageAddress, cycles := FetchByte(Cycles, memory);
      A, cycles' := ReadByte(cycles, zeroPageAddress, memory);
      LDASetStatus();
      assert cycles' == LoadZeroPage(m).cycles;
      assert Regs() == LoadZeroPage(m).cpu;
    }

    /** Case LDA zero page,X: the operand plus X, in 8 bits, is the address;
        the addition costs one cycle. */
    method LdaZeroPageX(Cycles: u32, memory: Mem, ghost m: Machine) returns (cycles': u32)
      requires memory.Valid() && WellFormed(m) && Opcode(m) == INS_LDA_ZPX
      requires Snapshot(memory, Cycles) == AfterOpcode(m)
      modifies this
      ensures Snapshot(memory, cycles') == LoadZeroPageX(m)
    {
      var zeroPageAddress, cycles;
      zeroPageAddress, cycles := FetchByte(Cycles, memory);
      zeroPageAddress := Add8(zeroPageAddress, X);
      cycles := Sub32(cycles, 1);
      A, cycles' := ReadByte(cycles, zeroPageAddress, memory);
      LDASetStatus();
      assert cycles' == LoadZeroPageX(m).cycles;
      assert Regs() == LoadZeroPageX(m).cpu;
    }

    /** Case JSR: fetch the target word, store PC - 1 (converted back to 16
        bits) at SP, jump, debit one more cycle and increment SP. */
    method Jsr(Cycles: u32, memory: Mem, ghost m: Machine) returns (cycles': u32)
      requires memory.Valid() && WellFormed(m) && Opcode(m) == INS_JSR
      requires m.cpu.SP as int + 1 < MAX_MEM
      requires Snapshot(memory, Cycles) == AfterOpcode(m)
      modifies this, memory.Data
      ensures Snapshot(memory, cycles') == JumpToSubroutine(m)
    {
      var subAddr, cycles;
      subAddr, cycles := FetchWord(Cycles, memory);
      assert subAddr == OperandWord(m);
      assert Add16(PC, -1) == Add16(m.cpu.PC, 2);
      cycles := memory.WriteWord(Add16(PC, -1), SP, cycles);
      assert memory.Data[..] == JumpToSubroutine(m).mem;
      PC := subAddr;
      cycles' := Sub32(cycles, 1);
      SP := Add16(SP, 1);
      assert cycles' == JumpToSubroutine(m).cycles;
      assert Regs() == JumpToSubroutine(m).cpu;
    }

    /** The run loop: while the budget is positive, execute one instruction.
        The loop stops early when `fuel` instructions have run, or before a
        JSR whose stack store would leave memory. */
    method Execute(Cycles: u32, memory: Mem, fuel: nat) returns (status: Status, remaining: u32)
      requires memory.Valid()
      modifies this, memory.Data
      ensures Outcome(Snapshot(memory, remaining), status) == Run(old(Snapshot(memory, Cycles)), fuel)
    {
      var cycles := Cycles;
      var f := fuel;
      ghost var cur := Snapshot(memory, cycles);
      ghost var target := Run(cur, fuel);
      while cycles > 0 && f > 0 && !(memory.Read(PC) == INS_JSR && SP == 0xFFFF)
        invariant cur == Snapshot(memory, cycles)
        invariant WellFormed(cur) && Run(cur, f) == target
        decreases f
      {
        cycles := Step(cycles, memory, cur);
        RunStep(cur, f);
        cur := Semantics.Step(cur);
        f := f - 1;
      }
      remaining := cycles;
      status := if cycles == 0 then Halted else if f == 0 then OutOfFuel else OutOfBounds;
      RunStopped(cur, f);
    }
  }
}
