/** Reference semantics of the processor: the effect of one whole instruction
    on registers, flags, memory and the cycle budget, as a table per opcode,
    and the run loop as a function with a fuel bound. The class `CPU` in
    module Processor is proved to implement these functions. */
module Semantics {
  import opened Types

  /** Opcodes handled by the dispatch. */
  const INS_LDA_IM: u8 := 0xA9
  const INS_LDA_ZP: u8 := 0xA5
  const INS_LDA_ZPX: u8 := 0xB5
  const INS_JSR: u8 := 0x20

  predicate Handled(op: u8)
  {
    op == INS_LDA_IM || op == INS_LDA_ZP || op == INS_LDA_ZPX || op == INS_JSR
  }

  /** Registers and the seven one-bit flags, each flag a bool. */
  datatype CpuState = CpuState(
    PC: u16, SP: u16,
    A: u8, X: u8, Y: u8,
    C: bool, Z: bool, I: bool, D: bool, B: bool, V: bool, N: bool)

  /** Register state established by `Reset`. */
  const ResetState: CpuState :=
    CpuState(0xFFFC, 0x0100, 0, 0, 0, false, false, false, false, false, false, false)

  /** Everything one instruction can touch: the processor, the 64 KiB of
      memory and the remaining cycle budget. */
  datatype Machine = Machine(cpu: CpuState, mem: seq<u8>, cycles: u32)

  predicate WellFormed(m: Machine) { |m.mem| == MAX_MEM }

  /** The byte at PC, and the one or two bytes after it. */
  function Opcode(m: Machine): u8
    requires WellFormed(m)
  {
    m.mem[m.cpu.PC]
  }

  function Operand(m: Machine): u8
    requires WellFormed(m)
  {
    m.mem[Add16(m.cpu.PC, 1)]
  }

  function OperandWord(m: Machine): u16
    requires WellFormed(m)
  {
    m.mem[Add16(m.cpu.PC, 1)] as int + 0x100 * m.mem[Add16(m.cpu.PC, 2)] as int
  }

  /** The instruction at PC has a defined effect: only JSR can fail, when its
      second stack byte would be stored past the end of memory. */
  predicate StepDefined(m: Machine)
  {
    WellFormed(m) && (Opcode(m) == INS_JSR ==> m.cpu.SP as int + 1 < MAX_MEM)
  }

  /** The machine once the opcode byte has been fetched. */
  function AfterOpcode(m: Machine): Machine
  {
    m.(cpu := m.cpu.(PC := Add16(m.cpu.PC, 1)), cycles := Sub32(m.cycles, 1))
  }

  /** Cycles an instruction debits, opcode fetch included. */
  function Cost(op: u8): nat
  {
    if op == INS_LDA_IM then 2
    else if op == INS_LDA_ZP then 3
    else if op == INS_LDA_ZPX then 4
    else if op == INS_JSR then 6
    else 1
  }

  /** Loading a byte into A and setting Z and N from it. */
  function Load(c: CpuState, v: u8): CpuState
  {
    c.(A := v, Z := v == 0, N := v >= 0x80)
  }

  /** One complete instruction: the table of handled opcodes. */
  function Step(m: Machine): Machine
    requires StepDefined(m)
  {
    var op := Opcode(m);
    if op == INS_LDA_IM then LoadImmediate(m)
    else if op == INS_LDA_ZP then LoadZeroPage(m)
    else if op == INS_LDA_ZPX then LoadZeroPageX(m)
    else if op == INS_JSR then JumpToSubroutine(m)
    else Unhandled(m)
  }

  /** LDA #v: A takes the operand byte; two bytes, two cycles. */
  function LoadImmediate(m: Machine): Machine
    requires WellFormed(m)
  {
    Machine(Load(m.cpu, Operand(m)).(PC := Add16(m.cpu.PC, 2)), m.mem, Sub32(m.cycles, 2))
  }

  /** LDA zp: A takes the byte at the zero-page operand; three cycles. */
  function LoadZeroPage(m: Machine): Machine
    requires WellFormed(m)
  {
    Machine(Load(m.cpu, m.mem[Operand(m)]).(PC := Add16(m.cpu.PC, 2)), m.mem, Sub32(m.cycles, 3))
  }

  /** LDA zp,X: the address is operand + X in 8 bits; four cycles. */
  function LoadZeroPageX(m: Machine): Machine
    requires WellFormed(m)
  {
    Machine(Load(m.cpu, m.mem[Add8(Operand(m), m.cpu.X)]).(PC := Add16(m.cpu.PC, 2)),
            m.mem, Sub32(m.cycles, 4))
  }

  /** JSR abs: PC - 1 after the operand (the instruction's last byte) is
      stored little-endian at SP and SP + 1, PC takes the operand word, SP
      grows by one; six cycles. */
  function JumpToSubroutine(m: Machine): Machine
    requires WellFormed(m) && m.cpu.SP as int + 1 < MAX_MEM
  {
    var ret := Add16(m.cpu.PC, 2);
    Machine(m.cpu.(PC := OperandWord(m), SP := Add16(m.cpu.SP, 1)),
            m.mem[m.cpu.SP := ret % 0x100][m.cpu.SP + 1 := ret / 0x100],
            Sub32(m.cycles, 6))
  }

  /** Any other opcode: only the opcode fetch happens. */
  function Unhandled(m: Machine): Machine
    requires WellFormed(m)
  {
    AfterOpcode(m)
  }

  /** Why the run loop stopped: the budget reached zero (the source's only
      exit), the fuel bound ran out, or a JSR would store out of bounds. */
  datatype Status = Halted | OutOfFuel | OutOfBounds

  datatype Outcome = Outcome(final: Machine, status: Status)

  /** The loop `while (Cycles > 0)` of `Execute`, run for at most `fuel`
      instructions. The budget is only tested between instructions. */
  function Run(m: Machine, fuel: nat): (o: Outcome)
    requires WellFormed(m)
    ensures WellFormed(o.final)
    decreases fuel
  {
    if m.cycles == 0 then Outcome(m, Halted)
    else if fuel == 0 then Outcome(m, OutOfFuel)
    else if !StepDefined(m) then Outcome(m, OutOfBounds)
    else Run(Step(m), fuel - 1)
  }

  // ---------------------------------------------------------------------
  // One instruction

  /** The three LDA forms: A receives the byte their addressing mode selects,
      Z and N follow A, PC moves past the operand, and nothing else changes. */
  lemma LoadInstruction(m: Machine)
    requires WellFormed(m)
    requires Opcode(m) in {INS_LDA_IM, INS_LDA_ZP, INS_LDA_ZPX}
    ensures StepDefined(m)
    ensures var r := Step(m);
      && r.cpu.A == (if Opcode(m) == INS_LDA_IM then Operand(m)
                     else if Opcode(m) == INS_LDA_ZP then m.mem[Operand(m)]
                     else m.mem[(Operand(m) + m.cpu.X) % 0x100])
      && (r.cpu.Z <==> r.cpu.A == 0)
      && (r.cpu.N <==> r.cpu.A >= 0x80)
      && r.cpu.PC == (m.cpu.PC + 2) % 0x1_0000
      && r.cpu.SP == m.cpu.SP && r.cpu.X == m.cpu.X && r.cpu.Y == m.cpu.Y
      && r.cpu.C == m.cpu.C && r.cpu.I == m.cpu.I && r.cpu.D == m.cpu.D
      && r.cpu.B == m.cpu.B && r.cpu.V == m.cpu.V
      && r.mem == m.mem
      && r.cycles == (m.cycles - (if Opcode(m) == INS_LDA_IM then 2
                                 else if Opcode(m) == INS_LDA_ZP then 3 else 4)) % 0x1_0000_0000
  {
  }

  /** Zero page,X never leaves page zero: base 0xFF with X = 2 reads 0x01. */
  lemma ZeroPageXWraps(m: Machine)
    requires WellFormed(m)
    requires Opcode(m) == INS_LDA_ZPX && Operand(m) == 0xFF && m.cpu.X == 2
    ensures StepDefined(m) && Step(m).cpu.A == m.mem[0x01]
  {
  }

  /** JSR: PC jumps to the operand word, the address of the instruction's
      last byte is stored little-endian at SP and SP + 1 and reads back as
      that address, SP grows by one only, and nothing else changes. */
  lemma JsrInstruction(m: Machine)
    requires WellFormed(m) && Opcode(m) == INS_JSR && m.cpu.SP < 0xFFFF
    ensures StepDefined(m)
    ensures var r := Step(m);
      && r.cpu == m.cpu.(PC := OperandWord(m), SP := m.cpu.SP + 1)
      && r.mem[m.cpu.SP] as int + 0x100 * r.mem[m.cpu.SP + 1] as int == (m.cpu.PC + 2) % 0x1_0000
      && |r.mem| == MAX_MEM
      && (forall k :: 0 <= k < MAX_MEM && k != m.cpu.SP && k != m.cpu.SP + 1 ==>
            r.mem[k] == m.mem[k])
      && r.cycles == (m.cycles - 6) % 0x1_0000_0000
  {
  }

  /** SP moves by one although JSR stores two bytes, so a JSR executed
      straight after another one stores its low byte over the high byte of
      the first return address. */
  lemma NestedJsrOverwrites(m: Machine)
    requires WellFormed(m) && Opcode(m) == INS_JSR && m.cpu.SP < 0xFFFE
    requires Opcode(JumpToSubroutine(m)) == INS_JSR
    ensures StepDefined(m) && StepDefined(Step(m))
    ensures var m1 := Step(m); var m2 := Step(m1);
      && m2.cpu.SP == m.cpu.SP + 2
      && m2.mem[m.cpu.SP] == (m.cpu.PC + 2) % 0x1_0000 % 0x100
      && m2.mem[m.cpu.SP + 1] == (m1.cpu.PC + 2) % 0x1_0000 % 0x100
      && m2.mem[m.cpu.SP + 2] == (m1.cpu.PC + 2) % 0x1_0000 / 0x100
  {
    var m1 := Step(m);
    assert m1 == JumpToSubroutine(m);
  }

  /** A JSR with SP = 0xFFFF has no defined effect (its second byte would be
      stored at 0x10000). */
  lemma JsrAtTopUndefined(m: Machine)
    requires WellFormed(m) && Opcode(m) == INS_JSR && m.cpu.SP == 0xFFFF
    ensures !StepDefined(m)
  {
  }

  /** An unhandled opcode only advances PC by one and debits one cycle. */
  lemma UnhandledInstruction(m: Machine)
    requires WellFormed(m) && !Handled(Opcode(m))
    ensures StepDefined(m)
    ensures Step(m) == m.(cpu := m.cpu.(PC := (m.cpu.PC + 1) % 0x1_0000),
                          cycles := (m.cycles - 1) % 0x1_0000_0000)
  {
  }

  /** Every instruction debits exactly the cycles of the cost table. */
  lemma StepCost(m: Machine)
    requires StepDefined(m)
    ensures Step(m).cycles == (m.cycles - Cost(Opcode(m))) % 0x1_0000_0000
  {
  }

  /** When fewer cycles remain than the instruction costs, the unsigned
      budget wraps to a large positive value, so the loop goes on. */
  lemma OvershootWraps(m: Machine)
    requires StepDefined(m) && 0 < m.cycles < Cost(Opcode(m))
    ensures Step(m).cycles == m.cycles + 0x1_0000_0000 - Cost(Opcode(m))
    ensures Step(m).cycles > 0
  {
  }

  // ---------------------------------------------------------------------
  // The run loop

  /** A loop iteration: with budget and fuel left and a defined
      instruction, the run is that instruction followed by the rest. */
  lemma RunStep(m: Machine, fuel: nat)
    requires StepDefined(m) && m.cycles > 0 && fuel > 0
    ensures Run(m, fuel) == Run(Step(m), fuel - 1)
  {
  }

  /** Where the loop stops and why. */
  lemma RunStopped(m: Machine, fuel: nat)
    requires WellFormed(m)
    requires m.cycles == 0 || fuel == 0 || (Opcode(m) == INS_JSR && m.cpu.SP == 0xFFFF)
    ensures Run(m, fuel) ==
      Outcome(m, if m.cycles == 0 then Halted else if fuel == 0 then OutOfFuel else OutOfBounds)
  {
  }

  /** The run reports Halted exactly when the budget is zero, which the
      source's loop condition makes its only exit; the other two statuses
      are the model's own stops. */
  lemma {:induction false} RunStatus(m: Machine, fuel: nat)
    requires WellFormed(m)
    ensures var o := Run(m, fuel);
      && (o.status == Halted <==> o.final.cycles == 0)
      && (o.status == OutOfFuel ==> o.final.cycles > 0)
      && (o.status == OutOfBounds ==>
            o.final.cycles > 0 && Opcode(o.final) == INS_JSR && o.final.cpu.SP == 0xFFFF)
    decreases fuel
  {
    if m.cycles != 0 && fuel != 0 && StepDefined(m) {
      RunStep(m, fuel);
      RunStatus(Step(m), fuel - 1);
    } else {
      RunStopped(m, fuel);
    }
  }

  /** Once the run has stopped for any reason but fuel, more fuel changes
      nothing: the bound only cuts runs short, it never alters them. */
  lemma {:induction false} RunFuelIrrelevant(m: Machine, fuel: nat, extra: nat)
    requires WellFormed(m)
    requires Run(m, fuel).status != OutOfFuel
    ensures Run(m, fuel + extra) == Run(m, fuel)
    decreases fuel
  {
    if m.cycles != 0 && fuel != 0 && StepDefined(m) {
      RunStep(m, fuel);
      RunFuelIrrelevant(Step(m), fuel - 1, extra);
      RunFuelIrrelevantStep(m, fuel, extra);
    } else {
      RunFuelIrrelevantStopped(m, fuel, extra);
    }
  }

  /** The inductive step of RunFuelIrrelevant: if extra fuel does not
      change the run after one instruction, it does not change the whole
      run. */
  lemma RunFuelIrrelevantStep(m: Machine, fuel: nat, extra: nat)
    requires StepDefined(m) && m.cycles > 0 && fuel > 0
    requires Run(Step(m), fuel - 1 + extra) == Run(Step(m), fuel - 1)
    ensures Run(m, fuel + extra) == Run(m, fuel)
  {
    RunStep(m, fuel);
    RunStep(m, fuel + extra);
  }

  /** The base case of RunFuelIrrelevant: a run that stops at once, for a
      reason other than fuel, stops at once with any more fuel. */
  lemma RunFuelIrrelevantStopped(m: Machine, fuel: nat, extra: nat)
    requires WellFormed(m) && !(m.cycles != 0 && fuel != 0 && StepDefined(m))
    requires Run(m, fuel).status != OutOfFuel
    ensures Run(m, fuel + extra) == Run(m, fuel)
  {
    RunStopped(m, fuel);
    RunStopped(m, fuel + extra);
  }

  /** Memory in which no byte is one of the four handled opcodes. */
  predicate NoHandledOpcode(mem: seq<u8>)
  {
    forall k :: 0 <= k < |mem| ==> !Handled(mem[k])
  }

  /** On such memory every instruction is unhandled: a budget of n cycles
      runs exactly n one-byte fetches and then stops, having moved PC by n
      and changed no register, flag or byte. */
  lemma {:induction false} UnhandledRun(m: Machine, fuel: nat)
    requires WellFormed(m) && NoHandledOpcode(m.mem)
    requires fuel >= m.cycles
    ensures Run(m, fuel) ==
      Outcome(Machine(m.cpu.(PC := (m.cpu.PC + m.cycles) % 0x1_0000), m.mem, 0), Halted)
    decreases m.cycles
  {
    if m.cycles != 0 {
      UnhandledInstruction(m);
      var m' := Step(m);
      UnhandledRun(m', fuel - 1);
      assert (m'.cpu.PC + m'.cycles) % 0x1_0000 == (m.cpu.PC + m.cycles) % 0x1_0000;
      assert m'.cpu.(PC := (m'.cpu.PC + m'.cycles) % 0x1_0000)
          == m.cpu.(PC := (m.cpu.PC + m.cycles) % 0x1_0000);
    }
  }

  /** Straight after a reset, memory is all zero and 0x00 is unhandled: a
      budget of n cycles leaves PC at 0xFFFC + n (mod 2^16) and every other
      register and flag as the reset left them. */
  lemma ResetThenRunZeros(n: u32, fuel: nat)
    requires fuel >= n
    ensures Run(Machine(ResetState, Zeros(), n), fuel) ==
      Outcome(Machine(ResetState.(PC := (0xFFFC + n) % 0x1_0000), Zeros(), 0), Halted)
  {
    assert NoHandledOpcode(Zeros());
    UnhandledRun(Machine(ResetState, Zeros(), n), fuel);
  }
}
