# RISC-V base-integer instructions and bus dispatch, in Dafny

This project models two pieces of the RISC-V machine under the rollup's
proof-generating virtual machine, and proves what their code promises.

1. **The RV32I instructions run by the interpreter at XLEN = 64**
   (`rv32i.dfy`). Chapter 2 of the RISC-V Unprivileged ISA specification
   (version 20191213) defines them. Section 2.4 covers ADDI, ANDI, ORI, XORI,
   LUI and AUIPC. Section 2.5 covers JAL, JALR, BEQ, BNE, BLT, BGE, BLTU and
   BGEU.
   - `XRegisters` is a class over an array of 32 64-bit registers.
   - `HartState` is a class holding the program counter `pc` and a register
     file.
   - The instructions that write a register are methods that update the
     array in place. Each one states the whole new register file in terms of
     the old one.
   - The six branches only read the hart, so they are functions that return
     the next address.
   - No instruction changes `pc`. Jumps and branches return the target, and
     the caller moves `pc` there.

2. **The bus** (`bus.dfy`). `Locate` splits the 64-bit address space into
   three regions:
   - a device window `[0, devicesLen)`;
   - main memory `[devicesLen, devicesLen + memSize)`;
   - everything else, which is out of bounds.

   It also translates an address to the address local to its region.
   `Bus.Read` and `Bus.Write` send each access to exactly one component, or
   fail with `OutOfBounds`. The device and memory back-ends are `Store`s:
   abstract sequences of cells with a given length.

`word.dfy` models Rust's `u64` and `i64` as bounded integers, with the casts,
`wrapping_add`, `saturating_sub` and the bitwise operators the two files use.
AND, OR and XOR are defined bit by bit, NOT arithmetically as 2^64 - 1 - a,
and all four are proved correct against `Bit(x, i)`, the meaning of "bit i of
x". `rv32i_examples.dfy` holds client methods that reach, from the
instruction contracts alone, the expected values of the interpreter's unit
tests `test_addi`, `test_auipc`, `test_beq_bne`, `test_bge_blt`,
`test_bitwise`, `test_bge_ble_u`, `test_jalr`, `test_jal` and `test_lui`
(`rv32i.rs:253-581`). The property tests' random inputs are method
parameters, with the tests' own assumptions (`r1 != r2`, `r1 < r2`) as
preconditions. The JALR case with x[rs1] = 100 and imm = 1001 is stated for
every odd sum. The `test_bitwise` masks are covered because its immediate is
any i64.

## Model

| member | source | states |
|---|---|---|
| Word.I64ToU64 | src/risc_v/interpreter/src/interpreter/rv32i.rs:25 | `imm as u64` keeps a non-negative immediate and adds 2^64 to a negative one (the two's-complement bit pattern read unsigned) |
| Word.U64ToI64 | src/risc_v/interpreter/src/interpreter/rv32i.rs:182-183 | `x as i64` has the same residue as x modulo 2^64, and is negative exactly when bit 63 of x is set |
| Word.CastRoundTrip | src/risc_v/interpreter/src/interpreter/rv32i.rs:182-183 | the casts `as u64` and `as i64` are inverse to each other in both directions |
| Word.SignedOrder | src/risc_v/interpreter/src/interpreter/rv32i.rs:179-241 | the `i64` order agrees with the `u64` order when the sign bits agree; when they differ, the word with bit 63 set is smaller signed and larger unsigned |
| Word.WrappingAdd | src/risc_v/interpreter/src/interpreter/rv32i.rs:25 | `wrapping_add` is the sum when it fits in 64 bits, and the sum less 2^64 when it overflows |
| Word.WrappingAddImmediate | src/risc_v/interpreter/src/interpreter/rv32i.rs:21-27 | adding `imm as u64` with wrapping is the same as adding the signed immediate modulo 2^64 |
| Word.SaturatingSub | src/risc_v/machine_state/src/bus.rs:42 | `saturating_sub` is the difference when `b <= a` and 0 otherwise; it never exceeds `a` |
| Word.And | src/risc_v/interpreter/src/interpreter/rv32i.rs:42 | each of the 64 bits of `a & b` is set exactly when it is set in both a and b |
| Word.Or | src/risc_v/interpreter/src/interpreter/rv32i.rs:50 | each bit of the bitwise OR of a and b is set exactly when it is set in a or in b |
| Word.Xor | src/risc_v/interpreter/src/interpreter/rv32i.rs:58 | each bit of `a ^ b` is set exactly when a and b differ in it |
| Word.Not | src/risc_v/interpreter/src/interpreter/rv32i.rs:87 | `!a` flips every one of the 64 bits |
| Word.ClearBit0 | src/risc_v/interpreter/src/interpreter/rv32i.rs:87 | `x & !1` is x minus its lowest bit: the result is even and differs from x only in bit 0 |
| Word.ClearLowBit | src/risc_v/interpreter/src/interpreter/rv32i.rs:84-87 | `x & !1` is x rounded down to an even number, i.e. x with bit 0 cleared |
| Word.XorInvolution | src/risc_v/interpreter/src/interpreter/rv32i.rs:54-60 | XOR with the same immediate twice restores the register value |
| Word.XorAllOnesIsNot | src/risc_v/interpreter/src/interpreter/rv32i.rs:54-60 | XORI with immediate -1 is bitwise inversion (the NOT pseudo-instruction of section 2.4 of the RISC-V Unprivileged ISA) |
| Word.AndOrIdentities | src/risc_v/interpreter/src/interpreter/rv32i.rs:38-52 | ANDI with -1 and ORI with 0 leave the value unchanged |
| Word.AndOrIdempotent | src/risc_v/interpreter/src/interpreter/rv32i.rs:38-52 | applying the same ANDI or ORI mask a second time changes nothing |
| Rv32i.XRegisters.RunAddi | src/risc_v/interpreter/src/interpreter/rv32i.rs:20-27 | rd receives `(x[rs1] + imm) mod 2^64` computed from the old rs1, and every other register is unchanged |
| Rv32i.XRegisters.RunLui | src/risc_v/interpreter/src/interpreter/rv32i.rs:29-36 | rd receives exactly `imm as u64` (imm itself if non-negative, imm + 2^64 otherwise), and every other register is unchanged |
| Rv32i.XRegisters.RunAndi | src/risc_v/interpreter/src/interpreter/rv32i.rs:38-44 | rd receives `old x[rs1] & (imm as u64)`, also when rd == rs1, and every other register is unchanged |
| Rv32i.XRegisters.RunOri | src/risc_v/interpreter/src/interpreter/rv32i.rs:46-52 | rd receives the bitwise OR of the old x[rs1] and `imm as u64`, and every other register is unchanged |
| Rv32i.XRegisters.RunXori | src/risc_v/interpreter/src/interpreter/rv32i.rs:54-60 | rd receives `old x[rs1] ^ (imm as u64)`, and every other register is unchanged |
| Rv32i.HartState.RunAuipc | src/risc_v/interpreter/src/interpreter/rv32i.rs:67-72 | rd receives `(pc + imm) mod 2^64`; pc and every other register are unchanged |
| Rv32i.HartState.RunJalrImpl | src/risc_v/interpreter/src/interpreter/rv32i.rs:74-92 | the target is `(old x[rs1] + imm) mod 2^64` with bit 0 cleared, so even; it uses rs1 before rd is written; rd receives `(pc + width) mod 2^64`; pc is unchanged |
| Rv32i.HartState.RunJalr | src/risc_v/interpreter/src/interpreter/rv32i.rs:94-101 | the same as RunJalrImpl for a 4-byte instruction |
| Rv32i.HartState.RunJalImpl | src/risc_v/interpreter/src/interpreter/rv32i.rs:103-112 | the target is `(pc + imm) mod 2^64`; rd receives `(pc + width) mod 2^64`; pc and every other register are unchanged |
| Rv32i.HartState.RunJal | src/risc_v/interpreter/src/interpreter/rv32i.rs:114-121 | the same as RunJalImpl for a 4-byte instruction |
| Rv32i.HartState.RunBeqImpl | src/risc_v/interpreter/src/interpreter/rv32i.rs:123-139 | returns `(pc + imm) mod 2^64` when the two registers are equal, else `(pc + width) mod 2^64` |
| Rv32i.HartState.RunBeq | src/risc_v/interpreter/src/interpreter/rv32i.rs:141-147 | the same as RunBeqImpl with width 4 |
| Rv32i.HartState.RunBneImpl | src/risc_v/interpreter/src/interpreter/rv32i.rs:149-165 | returns `(pc + imm) mod 2^64` when the registers differ, else `(pc + width) mod 2^64` |
| Rv32i.HartState.RunBne | src/risc_v/interpreter/src/interpreter/rv32i.rs:167-173 | the same as RunBneImpl with width 4 |
| Rv32i.HartState.RunBge | src/risc_v/interpreter/src/interpreter/rv32i.rs:175-190 | branches when rs1 >= rs2 as signed 64-bit values, else falls through to pc + 4 |
| Rv32i.HartState.RunBgeu | src/risc_v/interpreter/src/interpreter/rv32i.rs:192-207 | branches when rs1 >= rs2 as unsigned values, else falls through to pc + 4 |
| Rv32i.HartState.RunBlt | src/risc_v/interpreter/src/interpreter/rv32i.rs:209-224 | branches when rs1 < rs2 as signed 64-bit values, else falls through to pc + 4 |
| Rv32i.HartState.RunBltu | src/risc_v/interpreter/src/interpreter/rv32i.rs:226-241 | branches when rs1 < rs2 as unsigned values, else falls through to pc + 4 |
| Rv32i.BeqBneComplementary | src/risc_v/interpreter/src/interpreter/rv32i.rs:123-173 | on the same operands, exactly one of BEQ and BNE returns the branch target and the other returns pc + 4 |
| Rv32i.BltBgeComplementary | src/risc_v/interpreter/src/interpreter/rv32i.rs:175-224 | on the same operands, exactly one of BLT and BGE branches and the other falls through |
| Rv32i.BltuBgeuComplementary | src/risc_v/interpreter/src/interpreter/rv32i.rs:192-241 | on the same operands, exactly one of BLTU and BGEU branches and the other falls through |
| Rv32i.BltBltuAgreement | src/risc_v/interpreter/src/interpreter/rv32i.rs:209-241 | when the branch target differs from pc + 4, BLT and BLTU go to the same address exactly when the operands' sign bits agree |
| Bus.Locate | src/risc_v/machine_state/src/bus.rs:33-53 | below devicesLen: Devices with the same address; in `[devicesLen, devicesLen + memSize)`: MainMemory with local address `addr - devicesLen < memSize`; otherwise Unmapped, the region the source calls `AddressSpace::OutOfBounds`. Each is an if-and-only-if, so the three regions partition the address space |
| Bus.LocateMainMemoryRoundTrip | src/risc_v/machine_state/src/bus.rs:42-48 | locating `devicesLen + offset` gives back MainMemory at that offset, for every offset inside memory |
| Bus.LocateInjective | src/risc_v/machine_state/src/bus.rs:36-52 | two in-bounds addresses that locate to the same region and local address are the same address |
| Bus.Store.Read | src/risc_v/machine_state/src/bus.rs:19-20 | a component read succeeds exactly below its length and then returns that cell |
| Bus.Store.Write | src/risc_v/machine_state/src/bus.rs:22-23 | a component write succeeds exactly below its length and then replaces only that cell; a failed write changes nothing |
| Bus.Bus.Read | src/risc_v/machine_state/src/bus.rs:82-90 | a device-window address returns what the devices return at the same address; a memory address returns what memory returns at `addr - devicesLen`; any other address gives `Err(OutOfBounds)` |
| Bus.Bus.Write | src/risc_v/machine_state/src/bus.rs:92-100 | an in-bounds write goes to exactly one component at the translated local address and leaves the other untouched; an out-of-bounds write returns `Err(OutOfBounds)` and changes neither |
| Bus.WriteThenRead | src/risc_v/machine_state/src/bus.rs:74-101 | a write and a read at the same address fail at exactly the same addresses, and after a successful write the read returns the value written |

## Left out

- `registers.rs` is not part of this model. It holds `XRegisters::read` and `write`, the register numbering, the ABI names and any hard-wiring of x0. Here a register is an index below 32, and `XRegisters.Write` stores into any register, x0 included.
- The storage back-end (`backend::Manager`, `AllocatedOf`, layouts, `Bus::new_in`) is not modelled. Registers, pc and the bus components are plain fields, and constructors stand in for binding state to allocated space.
- The internals of `devices::Devices` and `main_memory::MainMemory` are not part of this model. Their code is not shown, so each is a `Store`: a sequence of cells that fails past its end.
- The values of `DEVICES_ADDRESS_SPACE_LENGTH` and `ML::LEN8` are not part of this model. They become the parameters `devicesLen` and `memSize`.
- Element width is not modelled. The element type `E` of an access takes one cell per address, so a multi-byte access that straddles a component's end is not modelled.
- Bus.Locate: the panic of `ML::LEN8.try_into().expect(...)` when the memory length does not fit in 64 bits is not modelled, because `memSize` is already a u64.
- Instruction decoding and immediate formatting happen elsewhere. The instruction members take an already formatted i64 immediate and do not check its U-, I-, J- or B-type shape.
- Instruction-address-misaligned exceptions are not modelled. The source never raises them, because it allows the C extension (`rv32i.rs:96`).
- `src/kernel_evm/kernel/src/upgrade.rs` is not part of this model. It is kernel-upgrade signature checking built on foreign secp256k1 and Keccak-256 library calls.
- The rollup node's commitment publication, cementation and refutation game are not in the files modelled here, so the model does not cover them.
