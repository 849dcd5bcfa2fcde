/**
 * The RV32I base integer instructions of chapter 2 of the RISC-V Unprivileged
 * ISA specification (version 20191213) that the interpreter implements, run
 * with XLEN = 64: the register-immediate instructions of section 2.4 (ADDI,
 * ANDI, ORI, XORI, LUI, AUIPC) and the control transfers of section 2.5 (JAL,
 * JALR and the six conditional branches).
 *
 * The register-writing instructions are methods that update the register file
 * in place; the branches only read the hart and return the next address.
 * No instruction writes the program counter: the jumps and branches return the
 * address the caller will move it to.
 */
module Rv32i {
  import opened Word

  /** Number of integer registers, x0 to x31. */
  const XREGISTER_COUNT: nat := 32

  /** An integer register, by its index. */
  type XRegister = r: nat | r < XREGISTER_COUNT

  /** A bus address has the width of a register. */
  type Address = u64

  /** Width in bytes of an uncompressed instruction. */
  const INSTR_WIDTH: u64 := 4

  /** The integer register file. */
  class XRegisters {
    const values: array<u64>

    ghost predicate Valid()
      reads this
    {
      values.Length == XREGISTER_COUNT
    }

    constructor (initial: seq<u64>)
      requires |initial| == XREGISTER_COUNT
      ensures Valid() && fresh(values)
      ensures values[..] == initial
    {
      values := new u64[XREGISTER_COUNT](i requires 0 <= i < XREGISTER_COUNT => initial[i]);
    }

    function Read(r: XRegister): u64
      reads this, values
      requires Valid()
    {
      values[r]
    }

    method Write(r: XRegister, v: u64)
      requires Valid()
      modifies values
      ensures values[..] == old(values[..])[r := v]
    {
      values[r] := v;
    }

    /** ADDI: rd := rs1 + imm, modulo 2^64. */
    method RunAddi(imm: i64, rs1: XRegister, rd: XRegister)
      requires Valid()
      modifies values
      ensures values[..] == old(values[..])[rd := (old(values[rs1]) + imm) % TWO64]
    {
      var rval := Read(rs1);
      var result := WrappingAdd(rval, I64ToU64(imm));
      WrappingAddImmediate(rval, imm);
      Write(rd, result);
    }

    /** LUI: rd := imm, the U-type immediate already shifted and sign-extended. */
    method RunLui(imm: i64, rd: XRegister)
      requires Valid()
      modifies values
      ensures values[..] == old(values[..])[rd := I64ToU64(imm)]
      ensures imm >= 0 ==> values[rd] == imm
      ensures imm < 0 ==> values[rd] == imm + TWO64
    {
      Write(rd, I64ToU64(imm));
    }

    /** ANDI: rd := rs1 & imm. */
    method RunAndi(imm: i64, rs1: XRegister, rd: XRegister)
      requires Valid()
      modifies values
      ensures values[..] == old(values[..])[rd := And(old(values[rs1]), I64ToU64(imm))]
    {
      var result := And(Read(rs1), I64ToU64(imm));
      Write(rd, result);
    }

    /** ORI: rd := rs1 | imm. */
    method RunOri(imm: i64, rs1: XRegister, rd: XRegister)
      requires Valid()
      modifies values
      ensures values[..] == old(values[..])[rd := Or(old(values[rs1]), I64ToU64(imm))]
    {
      var result := Or(Read(rs1), I64ToU64(imm));
      Write(rd, result);
    }

    /** XORI: rd := rs1 ^ imm. */
    method RunXori(imm: i64, rs1: XRegister, rd: XRegister)
      requires Valid()
      modifies values
      ensures values[..] == old(values[..])[rd := Xor(old(values[rs1]), I64ToU64(imm))]
    {
      var result := Xor(Read(rs1), I64ToU64(imm));
      Write(rd, result);
    }
  }

  /** Target of a taken jump or branch: pc + imm, modulo 2^64. */
  function Target(pc: Address, imm: i64): (t: Address)
  {
    (pc + imm) % TWO64
  }

  /** Address of the instruction after one of `width` bytes at pc, modulo 2^64. */
  function Next(pc: Address, width: u64): (t: Address)
  {
    WrappingAdd(pc, width)
  }

  /** A hart: the program counter and the integer register file. */
  class HartState {
    var pc: Address
    const xregisters: XRegisters

    ghost predicate Valid()
      reads this, xregisters
    {
      xregisters.Valid()
    }

    constructor (initialPc: Address, initial: seq<u64>)
      requires |initial| == XREGISTER_COUNT
      ensures Valid() && fresh(xregisters) && fresh(xregisters.values)
      ensures pc == initialPc && xregisters.values[..] == initial
    {
      pc := initialPc;
      xregisters := new XRegisters(initial);
    }

    /** AUIPC: rd := pc + imm, modulo 2^64; pc itself is left alone. */
    method RunAuipc(imm: i64, rd: XRegister)
      requires Valid()
      modifies xregisters.values
      ensures pc == old(pc)
      ensures xregisters.values[..] == old(xregisters.values[..])[rd := Target(pc, imm)]
    {
      var rval := WrappingAdd(pc, I64ToU64(imm));
      WrappingAddImmediate(pc, imm);
      xregisters.Write(rd, rval);
    }

    /**
     * JALR for an instruction of `width` bytes: the target is rs1 + imm with
     * bit 0 cleared, computed from rs1 before rd receives the return address.
     */
    method RunJalrImpl(width: u64, imm: i64, rs1: XRegister, rd: XRegister) returns (target: Address)
      requires Valid()
      modifies xregisters.values
      ensures pc == old(pc)
      ensures target % 2 == 0
      ensures target == ClearBit0(Target(old(xregisters.values[rs1]), imm))
      ensures xregisters.values[..] == old(xregisters.values[..])[rd := Next(pc, width)]
    {
      var returnAddress := WrappingAdd(pc, width);
      var rval := xregisters.Read(rs1);
      var sum := WrappingAdd(rval, I64ToU64(imm));
      WrappingAddImmediate(rval, imm);
      assert sum == Target(rval, imm);
      target := ClearBit0(sum);
      xregisters.Write(rd, returnAddress);
    }

    /** JALR, uncompressed. */
    method RunJalr(imm: i64, rs1: XRegister, rd: XRegister) returns (target: Address)
      requires Valid()
      modifies xregisters.values
      ensures pc == old(pc)
      ensures target % 2 == 0
      ensures target == ClearBit0(Target(old(xregisters.values[rs1]), imm))
      ensures xregisters.values[..] == old(xregisters.values[..])[rd := Next(pc, INSTR_WIDTH)]
    {
      target := RunJalrImpl(INSTR_WIDTH, imm, rs1, rd);
    }

    /** JAL for an instruction of `width` bytes: rd := pc + width, target pc + imm. */
    method RunJalImpl(width: u64, imm: i64, rd: XRegister) returns (target: Address)
      requires Valid()
      modifies xregisters.values
      ensures pc == old(pc)
      ensures target == Target(pc, imm)
      ensures xregisters.values[..] == old(xregisters.values[..])[rd := Next(pc, width)]
    {
      var currentPc := pc;
      var returnAddress := WrappingAdd(currentPc, width);
      xregisters.Write(rd, returnAddress);
      target := WrappingAdd(currentPc, I64ToU64(imm));
      WrappingAddImmediate(currentPc, imm);
    }

    /** JAL, uncompressed. */
    method RunJal(imm: i64, rd: XRegister) returns (target: Address)
      requires Valid()
      modifies xregisters.values
      ensures pc == old(pc)
      ensures target == Target(pc, imm)
      ensures xregisters.values[..] == old(xregisters.values[..])[rd := Next(pc, INSTR_WIDTH)]
    {
      target := RunJalImpl(INSTR_WIDTH, imm, rd);
    }

    /** BEQ for an instruction of `width` bytes. */
    function RunBeqImpl(width: u64, imm: i64, rs1: XRegister, rs2: XRegister): (target: Address)
      reads this, xregisters, xregisters.values
      requires Valid()
      ensures xregisters.values[rs1] == xregisters.values[rs2] ==> target == Target(pc, imm)
      ensures xregisters.values[rs1] != xregisters.values[rs2] ==> target == Next(pc, width)
    {
      WrappingAddImmediate(pc, imm);
      if xregisters.Read(rs1) == xregisters.Read(rs2) then WrappingAdd(pc, I64ToU64(imm))
      else WrappingAdd(pc, width)
    }

    /** BEQ, uncompressed. */
    function RunBeq(imm: i64, rs1: XRegister, rs2: XRegister): (target: Address)
      reads this, xregisters, xregisters.values
      requires Valid()
      ensures xregisters.values[rs1] == xregisters.values[rs2] ==> target == Target(pc, imm)
      ensures xregisters.values[rs1] != xregisters.values[rs2] ==> target == Next(pc, INSTR_WIDTH)
    {
      RunBeqImpl(INSTR_WIDTH, imm, rs1, rs2)
    }

    /** BNE for an instruction of `width` bytes. */
    function RunBneImpl(width: u64, imm: i64, rs1: XRegister, rs2: XRegister): (target: Address)
      reads this, xregisters, xregisters.values
      requires Valid()
      ensures xregisters.values[rs1] != xregisters.values[rs2] ==> target == Target(pc, imm)
      ensures xregisters.values[rs1] == xregisters.values[rs2] ==> target == Next(pc, width)
    {
      WrappingAddImmediate(pc, imm);
      if xregisters.Read(rs1) != xregisters.Read(rs2) then WrappingAdd(pc, I64ToU64(imm))
      else WrappingAdd(pc, width)
    }

    /** BNE, uncompressed. */
    function RunBne(imm: i64, rs1: XRegister, rs2: XRegister): (target: Address)
      reads this, xregisters, xregisters.values
      requires Valid()
      ensures xregisters.values[rs1] != xregisters.values[rs2] ==> target == Target(pc, imm)
      ensures xregisters.values[rs1] == xregisters.values[rs2] ==> target == Next(pc, INSTR_WIDTH)
    {
      RunBneImpl(INSTR_WIDTH, imm, rs1, rs2)
    }

    /** BGE: branch when rs1 >= rs2, both read as two's-complement i64. */
    function RunBge(imm: i64, rs1: XRegister, rs2: XRegister): (target: Address)
      reads this, xregisters, xregisters.values
      requires Valid()
      ensures U64ToI64(xregisters.values[rs1]) >= U64ToI64(xregisters.values[rs2]) ==> target == Target(pc, imm)
      ensures U64ToI64(xregisters.values[rs1]) < U64ToI64(xregisters.values[rs2]) ==> target == Next(pc, INSTR_WIDTH)
    {
      WrappingAddImmediate(pc, imm);
      var lhs := U64ToI64(xregisters.Read(rs1));
      var rhs := U64ToI64(xregisters.Read(rs2));
      if lhs >= rhs then WrappingAdd(pc, I64ToU64(imm)) else WrappingAdd(pc, 4)
    }

    /** BGEU: branch when rs1 >= rs2, both read as unsigned. */
    function RunBgeu(imm: i64, rs1: XRegister, rs2: XRegister): (target: Address)
      reads this, xregisters, xregisters.values
      requires Valid()
      ensures xregisters.values[rs1] >= xregisters.values[rs2] ==> target == Target(pc, imm)
      ensures xregisters.values[rs1] < xregisters.values[rs2] ==> target == Next(pc, INSTR_WIDTH)
    {
      WrappingAddImmediate(pc, imm);
      var lhs := xregisters.Read(rs1);
      var rhs := xregisters.Read(rs2);
      if lhs >= rhs then WrappingAdd(pc, I64ToU64(imm)) else WrappingAdd(pc, 4)
    }

    /** BLT: branch when rs1 < rs2, both read as two's-complement i64. */
    function RunBlt(imm: i64, rs1: XRegister, rs2: XRegister): (target: Address)
      reads this, xregisters, xregisters.values
      requires Valid()
      ensures U64ToI64(xregisters.values[rs1]) < U64ToI64(xregisters.values[rs2]) ==> target == Target(pc, imm)
      ensures U64ToI64(xregisters.values[rs1]) >= U64ToI64(xregisters.values[rs2]) ==> target == Next(pc, INSTR_WIDTH)
    {
      WrappingAddImmediate(pc, imm);
      var lhs := U64ToI64(xregisters.Read(rs1));
      var rhs := U64ToI64(xregisters.Read(rs2));
      if lhs < rhs then WrappingAdd(pc, I64ToU64(imm)) else WrappingAdd(pc, 4)
    }

    /** BLTU: branch when rs1 < rs2, both read as unsigned. */
    function RunBltu(imm: i64, rs1: XRegister, rs2: XRegister): (target: Address)
      reads this, xregisters, xregisters.values
      requires Valid()
      ensures xregisters.values[rs1] < xregisters.values[rs2] ==> target == Target(pc, imm)
      ensures xregisters.values[rs1] >= xregisters.values[rs2] ==> target == Next(pc, INSTR_WIDTH)
    {
      WrappingAddImmediate(pc, imm);
      var lhs := xregisters.Read(rs1);
      var rhs := xregisters.Read(rs2);
      if lhs < rhs then WrappingAdd(pc, I64ToU64(imm)) else WrappingAdd(pc, 4)
    }
  }

  /** Of BEQ and BNE on the same operands, exactly one branches and the other falls through. */
  lemma BeqBneComplementary(h: HartState, imm: i64, rs1: XRegister, rs2: XRegister)
    requires h.Valid()
    ensures (h.RunBeq(imm, rs1, rs2), h.RunBne(imm, rs1, rs2))
            in {(Target(h.pc, imm), Next(h.pc, INSTR_WIDTH)), (Next(h.pc, INSTR_WIDTH), Target(h.pc, imm))}
  {
  }

  /** Of BLT and BGE on the same operands, exactly one branches and the other falls through. */
  lemma BltBgeComplementary(h: HartState, imm: i64, rs1: XRegister, rs2: XRegister)
    requires h.Valid()
    ensures (h.RunBlt(imm, rs1, rs2), h.RunBge(imm, rs1, rs2))
            in {(Target(h.pc, imm), Next(h.pc, INSTR_WIDTH)), (Next(h.pc, INSTR_WIDTH), Target(h.pc, imm))}
  {
  }

  /** Of BLTU and BGEU on the same operands, exactly one branches and the other falls through. */
  lemma BltuBgeuComplementary(h: HartState, imm: i64, rs1: XRegister, rs2: XRegister)
    requires h.Valid()
    ensures (h.RunBltu(imm, rs1, rs2), h.RunBgeu(imm, rs1, rs2))
            in {(Target(h.pc, imm), Next(h.pc, INSTR_WIDTH)), (Next(h.pc, INSTR_WIDTH), Target(h.pc, imm))}
  {
  }

  /**
   * The signed and unsigned less-than branches agree when the two operands
   * have the same sign bit and disagree when they do not.
   */
  lemma BltBltuAgreement(h: HartState, imm: i64, rs1: XRegister, rs2: XRegister)
    requires h.Valid()
    requires Target(h.pc, imm) != Next(h.pc, INSTR_WIDTH)
    ensures h.RunBlt(imm, rs1, rs2) == h.RunBltu(imm, rs1, rs2)
            <==> Bit(h.xregisters.values[rs1], 63) == Bit(h.xregisters.values[rs2], 63)
  {
    SignedOrder(h.xregisters.values[rs1], h.xregisters.values[rs2]);
    SignedOrder(h.xregisters.values[rs2], h.xregisters.values[rs1]);
  }
}
