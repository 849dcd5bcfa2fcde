/**
 * Clients of the instruction contracts: the input and output values of the
 * interpreter's own unit tests, derived from the contracts alone. Registers
 * are named by index only; which index an ABI name such as `a1` stands for
 * is not part of this model.
 */
module Rv32iExamples {
  import opened Word
  import opened Rv32i

  const MAX_U64: u64 := TWO64 - 1
  const MIN_I64: u64 := TWO63       // i64::MIN as u64
  const MAX_I64: u64 := TWO63 - 1   // i64::MAX as u64

  function Zeros(): (s: seq<u64>)
    ensures |s| == XREGISTER_COUNT
  {
    seq(XREGISTER_COUNT, _ => 0)
  }

  method AddiExamples()
  {
    var x := new XRegisters(Zeros());
    x.Write(11, 0);
    x.RunAddi(0, 11, 28);
    assert x.values[28] == 0;
    x.Write(11, 0xFFF0_0420);
    x.RunAddi(0, 11, 7);
    assert x.values[7] == 0xFFF0_0420;
    x.Write(11, 0);
    x.RunAddi(-1, 11, 29);
    assert x.values[29] == 0xFFFF_FFFF_FFFF_FFFF;
    x.Write(11, I64ToU64(-123_000_987));
    x.RunAddi(1_000_000, 11, 12);
    assert x.values[12] == I64ToU64(-122_000_987);
    x.Write(11, 123_000_987);
    x.RunAddi(1_000_000, 11, 12);
    assert x.values[12] == 124_000_987;
    x.Write(11, I64ToU64(-321_000_000_000));
    x.RunAddi(-1, 11, 11);
    assert x.values[11] == I64ToU64(-321_000_000_001);
  }

  method LuiLeavesOtherRegisters(imm: i64)
  {
    var x := new XRegisters(Zeros());
    x.RunLui(imm, 13);
    assert x.values[13] == I64ToU64(imm);
    assert x.values[12] == 0 && x.values[14] == 0;
  }

  /** ANDI, ORI and XORI into another register, for any value and immediate. */
  method BitwiseOtherRegister(v: u64, imm: i64)
  {
    var x := new XRegisters(Zeros());
    x.Write(10, v);
    x.RunAndi(imm, 10, 11);
    assert x.values[11] == And(v, I64ToU64(imm));
    x.Write(11, v);
    x.RunAndi(imm, 11, 12);
    assert x.values[12] == And(v, I64ToU64(imm));
    x.Write(10, v);
    x.RunOri(imm, 10, 11);
    assert x.values[11] == Or(v, I64ToU64(imm));
    x.Write(7, v);
    x.RunXori(imm, 7, 6);
    assert x.values[6] == Xor(v, I64ToU64(imm)) && x.values[7] == v;
  }

  /**
   * ANDI, ORI and XORI with rd == rs1; a second ANDI or ORI with the same
   * immediate changes nothing, and a second XORI restores the value.
   */
  method BitwiseSameRegister(v: u64, imm: i64)
  {
    var x := new XRegisters(Zeros());
    x.Write(10, v);
    x.RunAndi(imm, 10, 10);
    assert x.values[10] == And(v, I64ToU64(imm));
    x.RunAndi(imm, 10, 10);
    AndOrIdempotent(v, I64ToU64(imm));
    assert x.values[10] == And(v, I64ToU64(imm));
    x.Write(10, v);
    x.RunOri(imm, 10, 10);
    assert x.values[10] == Or(v, I64ToU64(imm));
    x.RunOri(imm, 10, 10);
    assert x.values[10] == Or(v, I64ToU64(imm));
    x.Write(7, v);
    x.RunXori(imm, 7, 7);
    assert x.values[7] == Xor(v, I64ToU64(imm));
    x.RunXori(imm, 7, 7);
    XorInvolution(v, I64ToU64(imm));
    assert x.values[7] == v;
  }

  /** ANDI with -1 and ORI with 0 are moves; XORI with -1 is NOT. */
  method BitwiseIdentities(v: u64)
  {
    var x := new XRegisters(Zeros());
    x.Write(10, v);
    AndOrIdentities(v);
    XorAllOnesIsNot(v);
    x.RunAndi(-1, 10, 11);
    assert x.values[11] == v;
    x.RunOri(0, 10, 12);
    assert x.values[12] == v;
    x.RunXori(-1, 10, 13);
    assert x.values[13] == Not(v);
  }

  method AuipcExamples()
  {
    var h := new HartState(0, Zeros());
    h.RunAuipc(0, 12);
    assert h.xregisters.values[12] == 0;
    h.RunAuipc(0xFF_FFF0_0000, 10);
    assert h.xregisters.values[10] == 0xFF_FFF0_0000;
    h.pc := 0x000A_AAAA;
    h.RunAuipc(0xFF_FFF0_0000, 11);
    assert h.xregisters.values[11] == 0xFF_FFFA_AAAA;
    h.pc := 0xABCD_AAAA_FBC0_D3FE;
    h.RunAuipc(0, 30);
    assert h.xregisters.values[30] == 0xABCD_AAAA_FBC0_D3FE;
    h.pc := 0xFFFF_FFFF_FFF0_0000;
    h.RunAuipc(0x10_0000, 31);
    assert h.xregisters.values[31] == 0 && h.pc == 0xFFFF_FFFF_FFF0_0000;
  }

  method JalrAligned()
  {
    var h := new HartState(42, Zeros());
    h.xregisters.Write(12, 4);
    var t := h.RunJalr(42, 12, 6);
    assert t == 46 && h.xregisters.values[6] == 46 && h.pc == 42;
  }

  /** An odd sum loses its low bit, as in the unit test with x[rs1] = 100 and imm = 1001. */
  method JalrClearsBit0(base: u64, imm: i64)
    requires (base + imm) % TWO64 % 2 == 1
  {
    var h := new HartState(0, Zeros());
    h.xregisters.Write(11, base);
    var t := h.RunJalr(imm, 11, 6);
    assert t == (base + imm) % TWO64 - 1 && h.xregisters.values[6] == 4;
  }

  /** rd == rs1: the target is computed from rs1 before the return address replaces it. */
  method JalrSameRegister()
  {
    var h := new HartState(MAX_U64 - 1, Zeros());
    h.xregisters.Write(12, I64ToU64(-200));
    assert Target(I64ToU64(-200), 100) == I64ToU64(-100);
    assert Next(MAX_U64 - 1, INSTR_WIDTH) == 2;
    var t := h.RunJalr(100, 12, 12);
    assert t == I64ToU64(-100) && h.xregisters.values[12] == 2;
  }

  method JalrWrapsAround()
  {
    var h := new HartState(1_000_000_000_000, Zeros());
    h.xregisters.Write(12, MAX_U64 - 1_000_000_000_000 + 3);
    assert Target(MAX_U64 - 1_000_000_000_000 + 3, 1_000_000_000_000) == 2;
    var t := h.RunJalr(1_000_000_000_000, 12, 7);
    assert t == 2 && h.xregisters.values[7] == 1_000_000_000_004;
  }

  method JalExamples()
  {
    var h := new HartState(42, Zeros());
    var t := h.RunJal(42, 6);
    assert t == 84 && h.xregisters.values[6] == 46 && h.pc == 42;

    h.pc := 0;
    t := h.RunJal(1000, 6);
    assert t == 1000 && h.xregisters.values[6] == 4;

    h.pc := 50;
    t := h.RunJal(-100, 6);
    assert t == I64ToU64(-50) && h.xregisters.values[6] == 54;

    h.pc := MAX_U64 - 1;
    t := h.RunJal(100, 6);
    assert t == 98 && h.xregisters.values[6] == 2;

    h.pc := 1_000_000_000_000;
    t := h.RunJal(U64ToI64(MAX_U64 - 1_000_000_000_000 + 1), 7);
    assert t == 0 && h.xregisters.values[7] == 1_000_000_000_004;
  }

  /** BLT and BGE on the operand pairs of the signed-branch unit test. */
  method SignedBranchExamples(pc: u64, imm: i64)
  {
    var h := new HartState(pc, Zeros());
    var taken, next := Target(pc, imm), Next(pc, INSTR_WIDTH);

    // lhs < rhs
    h.xregisters.Write(6, 0);
    h.xregisters.Write(7, 1);
    assert h.RunBlt(imm, 6, 7) == taken;
    h.xregisters.Write(6, MIN_I64);
    h.xregisters.Write(7, MAX_I64);
    assert h.RunBge(imm, 6, 7) == next;

    // lhs > rhs
    h.xregisters.Write(6, MAX_U64);
    assert h.RunBlt(imm, 6, 7) == taken;
    assert h.RunBltu(imm, 6, 7) == next;
    h.xregisters.Write(6, 0);
    h.xregisters.Write(7, I64ToU64(-123_123));
    assert h.RunBge(imm, 6, 7) == taken;
    assert h.RunBgeu(imm, 6, 7) == next;

    // lhs == rhs, and one register for both operands
    h.xregisters.Write(7, 0);
    assert h.RunBlt(imm, 6, 7) == next;
    h.xregisters.Write(6, MAX_I64);
    h.xregisters.Write(7, MAX_I64);
    assert h.RunBge(imm, 6, 7) == taken;
    h.xregisters.Write(6, MAX_U64);
    assert h.RunBlt(imm, 6, 6) == next;
    h.xregisters.Write(7, 0);
    assert h.RunBge(imm, 7, 7) == taken;
  }

  /** The same test with immediate 0: a taken branch stays at pc. */
  method SignedBranchZeroOffset(pc: u64)
  {
    var h := new HartState(pc, Zeros());
    var next := Next(pc, INSTR_WIDTH);

    h.xregisters.Write(6, 100);
    h.xregisters.Write(7, MAX_I64);
    assert h.RunBlt(0, 6, 7) == pc;
    h.xregisters.Write(6, MAX_U64);
    h.xregisters.Write(7, MIN_I64);
    assert h.RunBge(0, 6, 7) == pc;
    h.xregisters.Write(6, 123_123_123);
    assert h.RunBlt(0, 6, 6) == next;
    h.xregisters.Write(7, MAX_U64);
    assert h.RunBge(0, 7, 7) == pc;
  }

  /** BEQ and BNE on different values, on equal values and on one register. */
  method EqualityBranchExamples(pc: u64, imm: i64, r1: u64, r2: u64)
    requires r1 != r2
  {
    var h := new HartState(pc, Zeros());
    var taken, next := Target(pc, imm), Next(pc, INSTR_WIDTH);

    h.xregisters.Write(6, r1);
    h.xregisters.Write(7, r2);
    assert h.RunBeq(imm, 6, 7) == next;
    assert h.RunBne(imm, 6, 7) == taken;
    assert h.RunBeq(0, 6, 7) == next;
    assert h.RunBne(0, 6, 7) == pc;

    assert h.RunBeq(imm, 6, 6) == taken;
    assert h.RunBne(imm, 6, 6) == next;
    assert h.RunBeq(0, 6, 6) == pc;
    assert h.RunBne(0, 6, 6) == next;

    h.xregisters.Write(7, r1);
    assert h.RunBeq(imm, 6, 7) == taken;
    assert h.RunBne(imm, 6, 7) == next;
    assert h.RunBeq(0, 6, 7) == pc;
    assert h.RunBne(0, 6, 7) == next;
  }

  /** BLTU and BGEU on any two values r1 < r2, both ways round, equal and on one register. */
  method UnsignedBranchExamples(pc: u64, imm: i64, r1: u64, r2: u64)
    requires r1 < r2
  {
    var h := new HartState(pc, Zeros());
    var taken, next := Target(pc, imm), Next(pc, INSTR_WIDTH);

    // lhs < rhs
    h.xregisters.Write(6, r1);
    h.xregisters.Write(7, r2);
    assert h.RunBltu(imm, 6, 7) == taken;
    assert h.RunBgeu(imm, 6, 7) == next;
    assert h.RunBltu(0, 6, 7) == pc;
    assert h.RunBgeu(0, 6, 7) == next;

    // one register for both operands
    assert h.RunBltu(imm, 6, 6) == next;
    assert h.RunBgeu(imm, 6, 6) == taken;
    assert h.RunBltu(0, 6, 6) == next;
    assert h.RunBgeu(0, 6, 6) == pc;

    // lhs > rhs
    h.xregisters.Write(6, r2);
    h.xregisters.Write(7, r1);
    assert h.RunBltu(imm, 6, 7) == next;
    assert h.RunBgeu(imm, 6, 7) == taken;
    assert h.RunBltu(0, 6, 7) == next;
    assert h.RunBgeu(0, 6, 7) == pc;

    // lhs == rhs
    h.xregisters.Write(7, r2);
    assert h.RunBltu(imm, 6, 7) == next;
    assert h.RunBgeu(imm, 6, 7) == taken;
    assert h.RunBltu(0, 6, 7) == next;
    assert h.RunBgeu(0, 6, 7) == pc;
  }
}
