/**
 * The interpreted execution backend: a compiled block owns a copy of the IL
 * instruction list and an array of typed 32-bit slots; executing it runs the
 * straight-line instruction list until a JUMP names the next guest address.
 *
 * Slot values are bv32, so ADD, SUB, ADD_CONST32 and MUL_U32 wrap modulo 2^32
 * by the type's own arithmetic.  The `(int32_t)` casts of the C code are read as
 * two's complement: a signed comparison compares the values with their sign bit
 * flipped, and an arithmetic right shift fills with copies of the sign bit.
 */
module CodeBlockIntp {
  import opened Errors

  datatype Option<+T> = None | Some(value: T)

  /** The kind of an interpreter slot (INTP_SLOT_*). */
  datatype SlotType = IntpSlotU32 | IntpSlotFloat | IntpSlotDouble

  /** The kind an IL block declares for a slot (SLOT_TYPE_*); Unknown stands for any other enumerator value. */
  datatype IlSlotType = SlotTypeU32 | SlotTypeFloat | SlotTypeDouble | SlotTypeUnknown(code: int)

  /** One slot.  Float and double slots are only tagged: the interpreter never reads or writes their values. */
  datatype Slot = Slot(tp: SlotType, u32val: bv32)

  type SlotIdx = nat
  /** Identifies an external function pointer (a fallback handler or a CALL_FUNC target). */
  type FuncId = nat
  /** Identifies a `struct memory_map` used by the READ/WRITE instructions. */
  type MapId = nat
  /** Identifies a raw host location read by LOAD_SLOT/LOAD_SLOT16 or written by STORE_SLOT. */
  type PtrId = nat

  /** The width of a memory-map read or a raw load; a 16-bit value is zero-extended into its slot. */
  datatype Width = W16 | W32

  /** The two-slot instructions `dst op= src`: JIT_OP_ADD, SUB, XOR, MOV (a plain copy), AND and OR. */
  datatype BinOp = OpAdd | OpSub | OpXor | OpMov | OpAnd | OpOr

  /** The slot-and-immediate instructions JIT_OP_ADD_CONST32, XOR_CONST32, AND_CONST32 and OR_CONST32. */
  datatype ConstOp = OpAddConst | OpXorConst | OpAndConst | OpOrConst

  /** The in-place one-slot instructions JIT_OP_SIGN_EXTEND_16, SLOT_TO_BOOL and NOT. */
  datatype UnOp = OpSignExtend16 | OpToBool | OpNot

  /** The static shifts JIT_OP_SHLL, SHAR (arithmetic) and SHLR (logical). */
  datatype ShiftOp = OpShll | OpShar | OpShlr

  /**
   * The comparisons of JIT_OP_SET_GT_UNSIGNED, SET_GT_SIGNED, SET_EQ,
   * SET_GE_UNSIGNED and SET_GE_SIGNED; the immediate forms SET_GT_SIGNED_CONST
   * and SET_GE_SIGNED_CONST use the two signed ones.
   */
  datatype CmpOp = GtUnsigned | GtSigned | Eq | GeUnsigned | GeSigned

  /**
   * One translated instruction (struct jit_inst).  Opcodes whose operands have
   * the same layout share a constructor and are told apart by an operator
   * field; each constructor lists the JIT_OP_* opcodes it stands for.
   */
  datatype JitInst =
    | Fallback(fallbackFn: FuncId, inst: nat)                                  // FALLBACK
    | Jump(jmpAddrSlot: SlotIdx)                                               // JUMP
    | Cmov(flagSlot: SlotIdx, srcSlot: SlotIdx, dstSlot: SlotIdx, tFlag: bv32) // CMOV
    | Cset(flagSlot: SlotIdx, dstSlot: SlotIdx, tFlag: bv32, srcVal: bv32)     // CSET
    | SetSlot(slotIdx: SlotIdx, newVal: bv32)                                  // SET_SLOT
    | CallFunc(func: FuncId, slotNo: SlotIdx)                                  // CALL_FUNC
    | ReadConstAddr(width: Width, memMap: MapId, addr: bv32, slotNo: SlotIdx)  // READ_16/32_CONSTADDR
    | ReadSlot(width: Width, memMap: MapId, addrSlot: SlotIdx, dstSlot: SlotIdx) // READ_16/32_SLOT
    | Write32Slot(memMap: MapId, addrSlot: SlotIdx, srcSlot: SlotIdx)          // WRITE_32_SLOT
    | LoadSlot(width: Width, src: PtrId, slotNo: SlotIdx)                      // LOAD_SLOT16, LOAD_SLOT
    | StoreSlot(dst: PtrId, slotNo: SlotIdx)                                   // STORE_SLOT
    | Alu(binOp: BinOp, slotSrc: SlotIdx, slotDst: SlotIdx)                    // ADD SUB XOR MOV AND OR
    | AluConst(constOp: ConstOp, slotNo: SlotIdx, const32: bv32)               // ADD/XOR/AND/OR_CONST32
    | Transform(unOp: UnOp, slotNo: SlotIdx)                                   // SIGN_EXTEND_16 SLOT_TO_BOOL NOT
    | Shift(shiftOp: ShiftOp, slotNo: SlotIdx, shiftAmt: bv32)                 // SHLL SHAR SHLR
    | DiscardSlot(slotNo: SlotIdx)                                             // DISCARD_SLOT
    | SetCmp(cmpOp: CmpOp, slotLhs: SlotIdx, slotRhs: SlotIdx, slotDst: SlotIdx) // SET_GT/GE/EQ_*
    | SetCmpConst(cmpOp: CmpOp, slotLhs: SlotIdx, immRhs: bv32, slotDst: SlotIdx) // SET_GT/GE_SIGNED_CONST
    | MulU32(slotLhs: SlotIdx, slotRhs: SlotIdx, slotDst: SlotIdx)             // MUL_U32
    | Shad(slotVal: SlotIdx, slotShiftAmt: SlotIdx)                            // SHAD

  /** The IL block descriptor a block is compiled from. */
  datatype IlCodeBlock = IlCodeBlock(instList: seq<JitInst>, slots: seq<IlSlotType>)

  /**
   * The collaborators the interpreter calls into, over an abstract CPU/host
   * state E: fallback handlers, CALL_FUNC targets, the memory map and the raw
   * locations behind LOAD_SLOT/STORE_SLOT.
   */
  datatype Externals<!E> = Externals(
    fallback: (E, FuncId, nat) -> E,
    callFunc: (E, FuncId, bv32) -> E,
    read16: (E, MapId, bv32) -> (E, bv16),
    read32: (E, MapId, bv32) -> (E, bv32),
    write32: (E, MapId, bv32, bv32) -> E,
    load16: (E, PtrId) -> bv16,
    load32: (E, PtrId) -> bv32,
    store32: (E, PtrId, bv32) -> E)

  // ---------------------------------------------------------------------------
  // 32-bit operations
  // ---------------------------------------------------------------------------

  const SignBit: bv32 := 0x8000_0000

  /** `(int32_t)a > (int32_t)b` in two's complement. */
  predicate SignedGt(a: bv32, b: bv32) {
    (a ^ SignBit) > (b ^ SignBit)
  }

  /** `(int32_t)a >= (int32_t)b` in two's complement. */
  predicate SignedGe(a: bv32, b: bv32) {
    (a ^ SignBit) >= (b ^ SignBit)
  }

  /** `(int32_t)v < 0`. */
  predicate Negative(v: bv32) {
    v & SignBit != 0
  }

  /** `((int32_t)v) >> k`: a right shift that fills the vacated top bits with the sign bit. */
  function Sar(v: bv32, k: bv32): (r: bv32)
    requires k < 32
    ensures r & SignBit == v & SignBit
    ensures !Negative(v) ==> r == v >> k
    ensures Negative(v) ==> r | (0xFFFF_FFFF >> k) == 0xFFFF_FFFF
  {
    if Negative(v) then !((!v) >> k) else v >> k
  }

  /**
   * A negative word's arithmetic shift is its logical shift with the k
   * vacated top bits set: below them the two shifts agree.
   */
  lemma SarOfNegative(v: bv32, k: bv32)
    requires k < 32 && Negative(v)
    ensures Sar(v, k) == (v >> k) | !(0xFFFF_FFFF >> k)
  {
  }

  /** `(int32_t)(int16_t)v`: the low half, with bit 15 copied into the top half. */
  function SignExtend16(v: bv32): (r: bv32)
    ensures (r ^ v) & 0xFFFF == 0   // the low half is v's own
  {
    if v & 0x8000 == 0 then v & 0xFFFF else v | 0xFFFF_0000
  }

  /** The top half of a sign-extended value is sixteen copies of bit 15. */
  lemma SignExtend16Top(v: bv32)
    ensures SignExtend16(v) >> 16 == (if v & 0x8000 == 0 then 0 else 0xFFFF)
  {
  }

  /** JIT_OP_SLOT_TO_BOOL: `v ? 1 : 0`. */
  function ToBool(v: bv32): (r: bv32)
    ensures r == 0 || r == 1
    ensures r == 1 <==> v != 0
  {
    if v != 0 then 1 else 0
  }

  function BinValue(op: BinOp, d: bv32, v: bv32): bv32 {
    match op
    case OpAdd => d + v
    case OpSub => d - v
    case OpXor => d ^ v
    case OpMov => v
    case OpAnd => d & v
    case OpOr => d | v
  }

  function ConstValue(op: ConstOp, v: bv32, c: bv32): bv32 {
    match op
    case OpAddConst => v + c
    case OpXorConst => v ^ c
    case OpAndConst => v & c
    case OpOrConst => v | c
  }

  function UnValue(op: UnOp, v: bv32): bv32 {
    match op
    case OpSignExtend16 => SignExtend16(v)
    case OpToBool => ToBool(v)
    case OpNot => !v
  }

  function ShiftValue(op: ShiftOp, v: bv32, k: bv32): bv32
    requires k < 32
  {
    match op
    case OpShll => v << k
    case OpShar => Sar(v, k)
    case OpShlr => v >> k
  }

  predicate CmpHolds(op: CmpOp, a: bv32, b: bv32) {
    match op
    case GtUnsigned => a > b
    case GtSigned => SignedGt(a, b)
    case Eq => a == b
    case GeUnsigned => a >= b
    case GeSigned => SignedGe(a, b)
  }

  /**
   * SHAD: shift left by a non-negative amount, arithmetically right by the
   * negation of a negative one.  An amount of 32 or more either way is
   * undefined behaviour in the C code and is reported as such.
   */
  function ShadValue(v: bv32, amt: bv32): (r: Result<bv32>)
    ensures r.Err? <==> (if Negative(amt) then -amt >= 32 else amt >= 32)
    ensures r.Err? ==> r.code == UndefinedBehaviour
    ensures !Negative(amt) && amt < 32 ==> r == Ok(v << amt)
    ensures Negative(amt) && -amt < 32 ==> r == Ok(Sar(v, -amt))
  {
    if !Negative(amt) then
      if amt < 32 then Ok(v << amt) else Err(UndefinedBehaviour)
    else
      var k := -amt;
      if k < 32 then Ok(Sar(v, k)) else Err(UndefinedBehaviour)
  }

  // ---------------------------------------------------------------------------
  // One instruction
  // ---------------------------------------------------------------------------

  /** slot_u32: the value of an integer slot, or ERROR_INTEGRITY when the slot is not a U32 slot. */
  function SlotU32(s: seq<Slot>, n: SlotIdx): (r: Result<bv32>)
    requires n < |s|
    ensures r.Ok? <==> s[n].tp == IntpSlotU32
    ensures r.Ok? ==> r.value == s[n].u32val
    ensures r.Err? ==> r.code == ErrorIntegrity
  {
    if s[n].tp == IntpSlotU32 then Ok(s[n].u32val) else Err(ErrorIntegrity)
  }

  /** The destination slot of an instruction: the one slot it may write, when it has one. */
  function Dest(inst: JitInst): Option<SlotIdx> {
    match inst
    case Fallback(_, _) => None
    case Jump(_) => None
    case Cmov(_, _, dst, _) => Some(dst)
    case Cset(_, dst, _, _) => Some(dst)
    case SetSlot(d, _) => Some(d)
    case CallFunc(_, _) => None
    case ReadConstAddr(_, _, _, d) => Some(d)
    case ReadSlot(_, _, _, d) => Some(d)
    case Write32Slot(_, _, _) => None
    case LoadSlot(_, _, d) => Some(d)
    case StoreSlot(_, _) => None
    case Alu(_, _, dst) => Some(dst)
    case AluConst(_, d, _) => Some(d)
    case Transform(_, d) => Some(d)
    case Shift(_, d, _) => Some(d)
    case DiscardSlot(_) => None
    case SetCmp(_, _, _, d) => Some(d)
    case SetCmpConst(_, _, _, d) => Some(d)
    case MulU32(_, _, d) => Some(d)
    case Shad(v, _) => Some(v)
  }

  /** The slots an instruction reads through slot_u32 before it does anything else. */
  function Reads(inst: JitInst): set<SlotIdx> {
    match inst
    case Jump(j) => {j}
    case Cmov(f, _, _, _) => {f}
    case Cset(f, _, _, _) => {f}
    case CallFunc(_, n) => {n}
    case ReadSlot(_, _, a, _) => {a}
    case Write32Slot(_, a, src) => {a, src}
    case StoreSlot(_, n) => {n}
    case Alu(_, src, dst) => {src, dst}
    case AluConst(_, d, _) => {d}
    case Transform(_, d) => {d}
    case Shift(_, d, _) => {d}
    case SetCmp(_, l, r, _) => {l, r}
    case SetCmpConst(_, l, _, _) => {l}
    case MulU32(l, r, _) => {l, r}
    case Shad(v, k) => {v, k}
    case _ => {}
  }

  /**
   * Every slot the instruction only reads lies below n, every static shift
   * amount is below 32, and an immediate comparison is one of the two signed ones.
   */
  predicate SourcesFit(inst: JitInst, n: nat) {
    match inst
    case Jump(j) => j < n
    case Cmov(f, src, _, _) => f < n && src < n
    case Cset(f, _, _, _) => f < n
    case CallFunc(_, v) => v < n
    case ReadSlot(_, _, a, _) => a < n
    case Write32Slot(_, a, src) => a < n && src < n
    case StoreSlot(_, src) => src < n
    case Alu(_, src, _) => src < n
    case Shift(_, _, k) => k < 32
    case SetCmp(_, l, r, _) => l < n && r < n
    case SetCmpConst(op, l, _, _) => l < n && (op == GtSigned || op == GeSigned)
    case MulU32(l, r, _) => l < n && r < n
    case Shad(_, k) => k < n
    case _ => true
  }

  /**
   * Every slot index the instruction names lies below n (the block's slot
   * count), and the operands are ones the IL generator produces.
   */
  predicate InstFits(inst: JitInst, n: nat) {
    (Dest(inst).Some? ==> Dest(inst).value < n) && SourcesFit(inst, n)
  }

  predicate WellFormed(insts: seq<JitInst>, n: nat) {
    forall i | 0 <= i < |insts| :: InstFits(insts[i], n)
  }

  /** What one instruction does: go on (with a new external state), store one slot, leave the block, or fail. */
  datatype Effect<!E> =
    | Proceed(env: E)
    | Update(slot: SlotIdx, val: bv32, env: E)
    | Exit(addr: bv32)
    | Fault(code: ErrorCode)

  /** What a non-JUMP instruction computes before its destination is written: nothing, a value, or a fatal error. */
  datatype Outcome<!E> = Continue(env: E) | Write(val: bv32, env: E) | Stop(code: ErrorCode)

  /**
   * What a non-JUMP instruction computes.  Every slot it reads is checked as
   * slot_u32 checks it: a slot that is not a U32 slot stops the instruction
   * with ERROR_INTEGRITY.
   */
  function Compute<E>(x: Externals<E>, inst: JitInst, s: seq<Slot>, env: E): Outcome<E>
    requires !inst.Jump? && InstFits(inst, |s|)
  {
    match inst
    case Fallback(fn, payload) => Continue(x.fallback(env, fn, payload))
    case Cmov(f, src, _, t) =>
      if s[f].tp != IntpSlotU32 then Stop(ErrorIntegrity)
      else if s[f].u32val & 1 != t then Continue(env)
      else if s[src].tp != IntpSlotU32 then Stop(ErrorIntegrity)
      else Write(s[src].u32val, env)
    case Cset(f, _, t, v) =>
      if s[f].tp != IntpSlotU32 then Stop(ErrorIntegrity)
      else if s[f].u32val & 1 != t then Continue(env)
      else Write(v, env)
    case SetSlot(_, v) => Write(v, env)
    case CallFunc(fn, n) =>
      if s[n].tp != IntpSlotU32 then Stop(ErrorIntegrity)
      else Continue(x.callFunc(env, fn, s[n].u32val))
    case ReadConstAddr(w, m, a, _) =>
      if w == W16 then var rd := x.read16(env, m, a); Write(rd.1 as bv32, rd.0)
      else var rd := x.read32(env, m, a); Write(rd.1, rd.0)
    case ReadSlot(w, m, aSlot, _) =>
      if s[aSlot].tp != IntpSlotU32 then Stop(ErrorIntegrity)
      else if w == W16 then var rd := x.read16(env, m, s[aSlot].u32val); Write(rd.1 as bv32, rd.0)
      else var rd := x.read32(env, m, s[aSlot].u32val); Write(rd.1, rd.0)
    case Write32Slot(m, aSlot, src) =>
      if s[aSlot].tp != IntpSlotU32 || s[src].tp != IntpSlotU32 then Stop(ErrorIntegrity)
      else Continue(x.write32(env, m, s[aSlot].u32val, s[src].u32val))
    case LoadSlot(w, p, _) =>
      Write(if w == W16 then x.load16(env, p) as bv32 else x.load32(env, p), env)
    case StoreSlot(p, n) =>
      if s[n].tp != IntpSlotU32 then Stop(ErrorIntegrity)
      else Continue(x.store32(env, p, s[n].u32val))
    case Alu(op, src, dst) =>
      if s[src].tp != IntpSlotU32 || s[dst].tp != IntpSlotU32 then Stop(ErrorIntegrity)
      else Write(BinValue(op, s[dst].u32val, s[src].u32val), env)
    case AluConst(op, d, c) =>
      if s[d].tp != IntpSlotU32 then Stop(ErrorIntegrity) else Write(ConstValue(op, s[d].u32val, c), env)
    case Transform(op, d) =>
      if s[d].tp != IntpSlotU32 then Stop(ErrorIntegrity) else Write(UnValue(op, s[d].u32val), env)
    case Shift(op, d, k) =>
      if s[d].tp != IntpSlotU32 then Stop(ErrorIntegrity) else Write(ShiftValue(op, s[d].u32val, k), env)
    case DiscardSlot(_) => Continue(env)
    case SetCmp(op, l, r, d) =>
      if s[l].tp != IntpSlotU32 || s[r].tp != IntpSlotU32 then Stop(ErrorIntegrity)
      else if !CmpHolds(op, s[l].u32val, s[r].u32val) then Continue(env)
      else if s[d].tp != IntpSlotU32 then Stop(ErrorIntegrity)
      else Write(s[d].u32val | 1, env)
    case SetCmpConst(op, l, imm, d) =>
      if s[l].tp != IntpSlotU32 then Stop(ErrorIntegrity)
      else if !CmpHolds(op, s[l].u32val, imm) then Continue(env)
      else if s[d].tp != IntpSlotU32 then Stop(ErrorIntegrity)
      else Write(s[d].u32val | 1, env)
    case MulU32(l, r, _) =>
      if s[l].tp != IntpSlotU32 || s[r].tp != IntpSlotU32 then Stop(ErrorIntegrity)
      else Write(s[l].u32val * s[r].u32val, env)
    case Shad(v, k) =>
      if s[k].tp != IntpSlotU32 || s[v].tp != IntpSlotU32 then Stop(ErrorIntegrity)
      else match ShadValue(s[v].u32val, s[k].u32val)
        case Ok(w) => Write(w, env)
        case Err(c) => Stop(c)
  }

  /**
   * The outcome of executing one instruction on the slots `s` and external state
   * `env`.  A computed value goes to the instruction's destination through
   * slot_u32, which fails unless that slot is a U32 slot; only a JUMP through a
   * U32 slot leaves the block.
   */
  function InstEffect<E>(x: Externals<E>, inst: JitInst, s: seq<Slot>, env: E): (r: Effect<E>)
    requires InstFits(inst, |s|)
    ensures r.Update? ==> Dest(inst) == Some(r.slot) && r.slot < |s| && s[r.slot].tp == IntpSlotU32
    ensures r.Exit? <==> inst.Jump? && s[inst.jmpAddrSlot].tp == IntpSlotU32
    ensures r.Exit? ==> r.addr == s[inst.jmpAddrSlot].u32val
    ensures inst.Jump? && s[inst.jmpAddrSlot].tp != IntpSlotU32 ==> r == Fault(ErrorIntegrity)
  {
    if inst.Jump? then
      match SlotU32(s, inst.jmpAddrSlot)
      case Err(c) => Fault(c)
      case Ok(a) => Exit(a)
    else
      match Compute(x, inst, s, env)
      case Continue(env') => Proceed(env')
      case Stop(c) => Fault(c)
      case Write(v, env') =>
        if Dest(inst).None? || s[Dest(inst).value].tp != IntpSlotU32 then Fault(ErrorIntegrity)
        else Update(Dest(inst).value, v, env')
  }

  /** The slots after an Update: only the integer value of the destination changes. */
  function Apply(s: seq<Slot>, n: SlotIdx, v: bv32): (r: seq<Slot>)
    requires n < |s|
    ensures |r| == |s| && r[n].u32val == v
    ensures forall i | 0 <= i < |s| :: r[i].tp == s[i].tp
    ensures forall i | 0 <= i < |s| && i != n :: r[i] == s[i]
  {
    s[n := s[n].(u32val := v)]
  }

  // ---------------------------------------------------------------------------
  // A whole block
  // ---------------------------------------------------------------------------

  /** How a run of a block ends: by a JUMP to `addr`, by a fatal error, or by running out of instructions. */
  datatype ExitKind = Jumped(addr: bv32) | Faulted(code: ErrorCode) | FellOff

  /** The end of a run: how it ended, the slots and external state then, and how many instructions ran. */
  datatype RunResult<!E> = RunResult(exit: ExitKind, slots: seq<Slot>, env: E, steps: nat)

  /** What code_block_intp_exec returns for each way a run ends: falling off the end is ERROR_INTEGRITY. */
  function ExitResult(k: ExitKind): (r: Result<bv32>)
    ensures r.Ok? <==> k.Jumped?
    ensures k.Jumped? ==> r == Ok(k.addr)
    ensures k.Faulted? ==> r == Err(k.code)
    ensures k.FellOff? ==> r == Err(ErrorIntegrity)
  {
    match k
    case Jumped(a) => Ok(a)
    case Faulted(c) => Err(c)
    case FellOff => Err(ErrorIntegrity)
  }

  /** The meaning of one instruction on given slots and external state. */
  type Semantics<!E> = (JitInst, seq<Slot>, E) -> Effect<E>

  /** Every update names an existing slot. */
  ghost predicate UpdatesInRange<E(!new)>(sem: Semantics<E>) {
    forall inst: JitInst, s: seq<Slot>, env: E :: sem(inst, s, env).Update? ==> sem(inst, s, env).slot < |s|
  }

  /** Only a JUMP leaves the block, and it leaves with the value of its address slot. */
  ghost predicate ExitsByJump<E(!new)>(sem: Semantics<E>) {
    forall inst: JitInst, s: seq<Slot>, env: E :: sem(inst, s, env).Exit? ==>
      inst.Jump? && inst.jmpAddrSlot < |s| && sem(inst, s, env).addr == s[inst.jmpAddrSlot].u32val
  }

  /**
   * The interpreter's semantics: InstEffect on an instruction that fits the
   * slots.  Compilation never produces one that does not, and such an
   * instruction is refused with ERROR_INTEGRITY.
   */
  function Step<E(!new)>(x: Externals<E>): (sem: Semantics<E>)
    ensures UpdatesInRange(sem) && ExitsByJump(sem)
  {
    (inst: JitInst, s: seq<Slot>, env: E) =>
      if InstFits(inst, |s|) then InstEffect(x, inst, s, env) else Fault(ErrorIntegrity)
  }

  /** Run the instruction list from position pc under the semantics sem. */
  function RunFrom<E(!new)>(sem: Semantics<E>, insts: seq<JitInst>, pc: nat, s: seq<Slot>, env: E): (r: RunResult<E>)
    requires pc <= |insts| && UpdatesInRange(sem)
    ensures pc <= r.steps <= |insts|
    ensures |r.slots| == |s| && forall i | 0 <= i < |s| :: r.slots[i].tp == s[i].tp
    decreases |insts| - pc
  {
    if pc == |insts| then RunResult(FellOff, s, env, pc)
    else
      match sem(insts[pc], s, env)
      case Exit(a) => RunResult(Jumped(a), s, env, pc + 1)
      case Fault(c) => RunResult(Faulted(c), s, env, pc + 1)
      case Proceed(env') => RunFrom(sem, insts, pc + 1, s, env')
      case Update(n, v, env') => RunFrom(sem, insts, pc + 1, Apply(s, n, v), env')
  }

  /** Running a whole block from its first instruction. */
  function Run<E(!new)>(x: Externals<E>, insts: seq<JitInst>, s: seq<Slot>, env: E): (r: RunResult<E>)
    ensures r.steps <= |insts|
    ensures |r.slots| == |s| && forall i | 0 <= i < |s| :: r.slots[i].tp == s[i].tp
  {
    RunFrom(Step(x), insts, 0, s, env)
  }

  // ---------------------------------------------------------------------------
  // The compiled block
  // ---------------------------------------------------------------------------

  /** The slot kind an IL slot kind compiles to; unknown kinds have none. */
  function IntpSlotType(t: IlSlotType): (r: Result<SlotType>)
    ensures r.Err? <==> t.SlotTypeUnknown?
    ensures r.Err? ==> r.code == ErrorUnimplemented
    ensures t == SlotTypeU32 <==> r == Ok(IntpSlotU32)
    ensures t == SlotTypeFloat <==> r == Ok(IntpSlotFloat)
    ensures t == SlotTypeDouble <==> r == Ok(IntpSlotDouble)
  {
    match t
    case SlotTypeU32 => Ok(IntpSlotU32)
    case SlotTypeFloat => Ok(IntpSlotFloat)
    case SlotTypeDouble => Ok(IntpSlotDouble)
    case SlotTypeUnknown(_) => Err(ErrorUnimplemented)
  }

  /** struct code_block_intp. */
  class IntpBlock {
    var instList: seq<JitInst>
    var instCount: nat
    var cycleCount: nat
    var nSlots: nat
    var slots: array<Slot>

    ghost predicate Valid()
      reads this
    {
      instCount == |instList| && nSlots == slots.Length
    }

    /** A block as code_block_intp_init leaves it: no instructions, no slots, no cycles. */
    ghost predicate Blank()
      reads this
    {
      Valid() && instList == [] && instCount == 0 && cycleCount == 0 && nSlots == 0
    }

    /** code_block_intp_init: an all-zero block with no instructions and no slots. */
    constructor ()
      ensures Valid() && fresh(slots)
      ensures instList == [] && instCount == 0 && cycleCount == 0 && nSlots == 0
    {
      instList := [];
      instCount := 0;
      cycleCount := 0;
      nSlots := 0;
      slots := new Slot[0];
    }

    /**
     * code_block_intp_compile: copy the instruction list, record the counts and
     * build one zeroed slot per IL slot with the matching kind.  An unknown kind
     * raises ERROR_UNIMPLEMENTED at the first such slot.
     */
    method Compile(il: IlCodeBlock, cycles: nat) returns (r: Result<()>)
      modifies this
      ensures Valid() && fresh(slots)
      ensures instList == il.instList && instCount == |il.instList|
      ensures cycleCount == cycles && nSlots == |il.slots|
      ensures r.Ok? <==> forall i | 0 <= i < |il.slots| :: !il.slots[i].SlotTypeUnknown?
      ensures r.Ok? ==> forall i | 0 <= i < nSlots ::
                          slots[i] == Slot(IntpSlotType(il.slots[i]).value, 0)
      ensures r.Err? ==> r.code == ErrorUnimplemented
    {
      instList := il.instList;
      cycleCount := cycles;
      instCount := |il.instList|;
      nSlots := |il.slots|;
      slots := new Slot[nSlots](_ => Slot(IntpSlotU32, 0));
      for slotNo := 0 to nSlots
        invariant fresh(slots) && Valid()
        invariant instList == il.instList && instCount == |il.instList|
        invariant cycleCount == cycles && nSlots == |il.slots|
        invariant forall i | 0 <= i < slotNo :: !il.slots[i].SlotTypeUnknown?
        invariant forall i | 0 <= i < slotNo :: slots[i] == Slot(IntpSlotType(il.slots[i]).value, 0)
      {
        match IntpSlotType(il.slots[slotNo]) {
          case Ok(t) => slots[slotNo] := Slot(t, 0);
          case Err(c) => r := Err(c); return;
        }
      }
      r := Ok(());
    }

    /**
     * code_block_intp_exec: run at most instCount instructions, updating the
     * slots in place, and return the JUMP target; a fatal error, or running out
     * of instructions, returns an error instead.
     */
    method Exec<E(!new)>(x: Externals<E>, env0: E) returns (r: Result<bv32>, env: E)
      requires Valid() && WellFormed(instList, slots.Length)
      modifies slots
      ensures var rr := Run(x, instList, old(slots[..]), env0);
              r == ExitResult(rr.exit) && slots[..] == rr.slots && env == rr.env
    {
      var remaining := instCount;
      var pc := 0;
      env := env0;
      ghost var s0 := slots[..];
      while remaining > 0
        invariant pc + remaining == instCount == |instList|
        invariant |slots[..]| == |s0| && WellFormed(instList, |s0|)
        invariant RunFrom(Step(x), instList, pc, slots[..], env) == Run(x, instList, s0, env0)
      {
        remaining := remaining - 1;
        ghost var s := slots[..];
        assert InstFits(instList[pc], |s|);
        var eff := InstEffect(x, instList[pc], slots[..], env);
        assert Step(x)(instList[pc], s, env) == eff;
        match eff {
          case Proceed(e) =>
            env := e;
          case Update(n, v, e) =>
            slots[n] := slots[n].(u32val := v);
            assert slots[..] == Apply(s, n, v);
            env := e;
          case Exit(a) =>
            r := Ok(a);
            return;
          case Fault(c) =>
            r := Err(c);
            return;
        }
        pc := pc + 1;
      }
      r := Err(ErrorIntegrity);
    }
  }
}
