/** The program of `main`: reset, store a JSR to 0x4242 at the start address
    and an LDA #$84 at 0x4242, then run with a budget of nine cycles. */
module Demo {
  import opened Types
  import opened Memory
  import opened Semantics
  import opened Processor

  /** Memory after the five stores of the sample program into zeroed memory. */
  function SampleImage(): (s: seq<u8>)
    ensures |s| == MAX_MEM
  {
    Zeros()[0xFFFC := INS_JSR][0xFFFD := 0x42][0xFFFE := 0x42][0x4242 := INS_LDA_IM][0x4243 := 0x84]
  }

  /** Register state at the end of the sample run. */
  const SampleFinal: CpuState := ResetState.(PC := 0x4245, SP := 0x0101, A := 0x84, N := true)

  /** The sample run instruction by instruction: JSR (6 cycles, PC - 1 =
      0xFFFE stored at 0x0100), LDA #$84 (2 cycles), and with one cycle left
      the unhandled 0x00 at 0x4244, which brings the budget to zero. */
  lemma SampleTrace(fuel: nat)
    requires fuel >= 3
    ensures Run(Machine(ResetState, SampleImage(), 9), fuel) ==
      Outcome(Machine(SampleFinal, SampleImage()[0x0100 := 0xFE][0x0101 := 0xFF], 0), Halted)
  {
    var m0 := Machine(ResetState, SampleImage(), 9);
    assert Opcode(m0) == INS_JSR && OperandWord(m0) == 0x4242;
    var m1 := Step(m0);
    assert m1 == Machine(ResetState.(PC := 0x4242, SP := 0x0101),
                         SampleImage()[0x0100 := 0xFE][0x0101 := 0xFF], 3);
    assert Opcode(m1) == INS_LDA_IM && Operand(m1) == 0x84;
    var m2 := Step(m1);
    assert m2 == Machine(SampleFinal.(PC := 0x4244), m1.mem, 1);
    assert Opcode(m2) == 0;
    var m3 := Step(m2);
    assert m3 == Machine(SampleFinal, m1.mem, 0);
    assert Run(m0, fuel) == Run(m1, fuel - 1) == Run(m2, fuel - 2) == Run(m3, fuel - 3);
  }

  /** Runs the sample program on a fresh memory and processor and reports
      the final registers, the two stack bytes and why the loop ended. */
  method SampleRun() returns (final: CpuState, stackLo: u8, stackHi: u8, status: Status)
    ensures status == Halted
    ensures final == SampleFinal
    ensures final.PC == 0x4245 && final.SP == 0x0101 && final.A == 0x84 && final.N && !final.Z
    ensures stackLo == 0xFE && stackHi == 0xFF
  {
    var mem := new Mem();
    var cpu := new CPU();
    cpu.Reset(mem);
    mem.Write(0xFFFC, INS_JSR);
    mem.Write(0xFFFD, 0x42);
    mem.Write(0xFFFE, 0x42);
    mem.Write(0x4242, INS_LDA_IM);
    mem.Write(0x4243, 0x84);
    assert mem.Data[..] == SampleImage();
    SampleTrace(9);
    var remaining;
    status, remaining := cpu.Execute(9, mem, 9);
    final := cpu.Regs();
    stackLo := mem.Read(0x0100);
    stackHi := mem.Read(0x0101);
  }

  /** Resetting twice leaves the same registers and memory as resetting once. */
  method ResetTwice(cpu: CPU, memory: Mem) returns (once: CpuState, onceMem: seq<u8>)
    requires memory.Valid()
    modifies cpu, memory.Data
    ensures cpu.Regs() == once && memory.Data[..] == onceMem
    ensures once == ResetState && onceMem == Zeros()
  {
    cpu.Reset(memory);
    once, onceMem := cpu.Regs(), memory.Data[..];
    cpu.Reset(memory);
  }
}
