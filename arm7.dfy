/**
 * The ARM7 sound CPU's register banking and its two-entry prefetch buffer.
 * A logical register number is mapped to a physical register slot according
 * to the CPU mode in the CPSR; the instruction buffer mimics ARM's visible
 * pipeline, with R15 pointing two instructions ahead of the one executing.
 */
module Arm7 {
  import opened Errors

  /** A 32-bit register or memory word (uint32_t), as an unsigned integer. */
  type Word = x: int | 0 <= x < 0x1_0000_0000

  /** C's unsigned 32-bit wrap-around. */
  function Wrap(x: int): (r: Word)
    ensures 0 <= x < 0x1_0000_0000 ==> r == x
  {
    x % 0x1_0000_0000
  }

  // ---------------------------------------------------------------------------
  // Register banking
  // ---------------------------------------------------------------------------

  /**
   * Where each bank of the register file starts.  The emulator fixes these
   * indices in a header that is not part of this model; any layout in which
   * the banks are disjoint and fit the file behaves the same way.
   */
  datatype RegLayout = RegLayout(
    r0: nat,        // R0..R15 of user mode
    r8Fiq: nat,     // R8_FIQ..R14_FIQ
    r13Irq: nat,    // R13_IRQ, R14_IRQ
    r13Svc: nat,    // R13_SVC, R14_SVC
    r13Abt: nat,    // R13_ABT, R14_ABT
    r13Und: nat,    // R13_UND, R14_UND
    cpsr: nat,
    count: nat)     // ARM7_REGISTER_COUNT

  /** The CPU modes the CPSR's mode field can select. */
  datatype Mode = User | Fiq | Irq | Svc | Abt | Und

  /** The block of slots a mode owns: user mode owns R0-R15, FIQ mode R8-R14, the others R13 and R14. */
  datatype Bank = Bank(base: nat, len: nat)

  function BankOf(l: RegLayout, m: Mode): Bank {
    match m
    case User => Bank(l.r0, 16)
    case Fiq => Bank(l.r8Fiq, 7)
    case Irq => Bank(l.r13Irq, 2)
    case Svc => Bank(l.r13Svc, 2)
    case Abt => Bank(l.r13Abt, 2)
    case Und => Bank(l.r13Und, 2)
  }

  predicate InBank(i: nat, b: Bank) {
    b.base <= i < b.base + b.len
  }

  /** The banks fit the register file, no two overlap, and the CPSR lies outside all of them. */
  predicate LayoutOk(l: RegLayout) {
    (forall m: Mode :: BankOf(l, m).base + BankOf(l, m).len <= l.count) &&
    (forall m1: Mode, m2: Mode | m1 != m2 ::
       BankOf(l, m1).base + BankOf(l, m1).len <= BankOf(l, m2).base ||
       BankOf(l, m2).base + BankOf(l, m2).len <= BankOf(l, m1).base) &&
    l.cpsr < l.count &&
    (forall m: Mode :: !InBank(l.cpsr, BankOf(l, m)))
  }

  /** The program counter's slot: R15 is never banked. */
  function PcIdx(l: RegLayout): (r: nat)
    ensures LayoutOk(l) ==> r < l.count && InBank(r, BankOf(l, User))
  {
    assert BankOf(l, User).base == l.r0;
    l.r0 + 15
  }

  /** The CPSR mode field's encoding of each mode. */
  function ModeBits(m: Mode): nat {
    match m
    case User => 0x10
    case Fiq => 0x11
    case Irq => 0x12
    case Svc => 0x13
    case Abt => 0x17
    case Und => 0x1b
  }

  /** The CPSR's mode field, its low five bits (cpsr & ARM7_CPSR_M_MASK). */
  function ModeField(cpsr: Word): nat {
    cpsr % 0x20
  }

  /** The mode a CPSR selects, or ERROR_UNIMPLEMENTED for a mode field outside the six encodings. */
  function CpsrMode(cpsr: Word): (r: Result<Mode>)
    ensures r.Ok? ==> ModeBits(r.value) == ModeField(cpsr)
    ensures r.Err? <==> forall m: Mode :: ModeBits(m) != ModeField(cpsr)
    ensures r.Err? ==> r.code == ErrorUnimplemented
  {
    var bits := ModeField(cpsr);
    if bits == 0x10 then assert ModeBits(User) == bits; Ok(User)
    else if bits == 0x11 then assert ModeBits(Fiq) == bits; Ok(Fiq)
    else if bits == 0x12 then assert ModeBits(Irq) == bits; Ok(Irq)
    else if bits == 0x13 then assert ModeBits(Svc) == bits; Ok(Svc)
    else if bits == 0x17 then assert ModeBits(Abt) == bits; Ok(Abt)
    else if bits == 0x1b then assert ModeBits(Und) == bits; Ok(Und)
    else Err(ErrorUnimplemented)
  }

  /** Whether logical register reg has a mode-private copy in mode m. */
  predicate Banked(m: Mode, reg: nat) {
    if m == Fiq then 8 <= reg <= 14
    else if m == User then false
    else 13 <= reg <= 14
  }

  /**
   * arm7_gen_reg: the physical slot of logical register reg under the
   * CPSR's mode.  FIQ mode banks R8-R14; IRQ, SVC, ABT and UND bank R13 and
   * R14; everything else is the user register.
   */
  function GenReg(l: RegLayout, cpsr: Word, reg: nat): (r: Result<nat>)
    ensures r.Err? <==> CpsrMode(cpsr).Err?
    ensures r.Err? ==> r.code == ErrorUnimplemented
  {
    var m :- CpsrMode(cpsr);
    match m
    case User => Ok(reg + l.r0)
    case Fiq => if 8 <= reg <= 14 then Ok(reg - 8 + l.r8Fiq) else Ok(reg + l.r0)
    case Irq => if 13 <= reg <= 14 then Ok(reg - 13 + l.r13Irq) else Ok(reg + l.r0)
    case Svc => if 13 <= reg <= 14 then Ok(reg - 13 + l.r13Svc) else Ok(reg + l.r0)
    case Abt => if 13 <= reg <= 14 then Ok(reg - 13 + l.r13Abt) else Ok(reg + l.r0)
    case Und => if 13 <= reg <= 14 then Ok(reg - 13 + l.r13Und) else Ok(reg + l.r0)
  }

  /** Registers without a private copy in the mode are the user registers, R15 included. */
  lemma UnbankedIsUser(l: RegLayout, cpsr: Word, reg: nat)
    requires reg < 16 && CpsrMode(cpsr).Ok? && !Banked(CpsrMode(cpsr).value, reg)
    ensures GenReg(l, cpsr, reg) == Ok(l.r0 + reg)
  {
  }

  /**
   * A banked register's slot is its offset from the first banked register
   * (R8 in FIQ mode, R13 otherwise) past the start of its own mode's bank.
   */
  lemma BankedInOwnBank(l: RegLayout, cpsr: Word, reg: nat)
    requires reg < 16 && CpsrMode(cpsr).Ok? && Banked(CpsrMode(cpsr).value, reg)
    ensures var m := CpsrMode(cpsr).value;
      GenReg(l, cpsr, reg).Ok? &&
      GenReg(l, cpsr, reg).value == BankOf(l, m).base + reg - (if m == Fiq then 8 else 13)
    ensures InBank(GenReg(l, cpsr, reg).value, BankOf(l, CpsrMode(cpsr).value))
  {
  }

  /** A banked register's slot is in the register file, but neither among the user registers nor the CPSR. */
  lemma BankedOutsideUser(l: RegLayout, cpsr: Word, reg: nat)
    requires LayoutOk(l) && reg < 16 && CpsrMode(cpsr).Ok? && Banked(CpsrMode(cpsr).value, reg)
    ensures var i := GenReg(l, cpsr, reg).value;
      !InBank(i, BankOf(l, User)) && i != l.cpsr && i < l.count
  {
    var m := CpsrMode(cpsr).value;
    BankedInOwnBank(l, cpsr, reg);
    assert m != User;
    assert !InBank(l.cpsr, BankOf(l, m));
  }

  /** Every slot the mapping yields is inside the register file and is not the CPSR. */
  lemma GenRegInFile(l: RegLayout, cpsr: Word, reg: nat)
    requires LayoutOk(l) && reg < 16 && CpsrMode(cpsr).Ok?
    ensures GenReg(l, cpsr, reg).value < l.count && GenReg(l, cpsr, reg).value != l.cpsr
  {
    if Banked(CpsrMode(cpsr).value, reg) {
      BankedOutsideUser(l, cpsr, reg);
    } else {
      assert InBank(GenReg(l, cpsr, reg).value, BankOf(l, User));
      assert !InBank(l.cpsr, BankOf(l, User));
    }
  }

  /** Within one mode, distinct logical registers occupy distinct slots. */
  lemma GenRegInjective(l: RegLayout, cpsr: Word, a: nat, b: nat)
    requires LayoutOk(l) && a < 16 && b < 16 && a != b && CpsrMode(cpsr).Ok?
    ensures GenReg(l, cpsr, a).value != GenReg(l, cpsr, b).value
  {
    var m := CpsrMode(cpsr).value;
    if Banked(m, a) && !Banked(m, b) {
      BankedOutsideUser(l, cpsr, a);
      assert InBank(GenReg(l, cpsr, b).value, BankOf(l, User));
    } else if Banked(m, b) && !Banked(m, a) {
      BankedOutsideUser(l, cpsr, b);
      assert InBank(GenReg(l, cpsr, a).value, BankOf(l, User));
    }
  }

  /** Any two different modes keep R13 in different slots: changing mode switches stacks. */
  lemma StacksSeparate(l: RegLayout, c1: Word, c2: Word)
    requires LayoutOk(l) && CpsrMode(c1).Ok? && CpsrMode(c2).Ok?
    requires CpsrMode(c1).value != CpsrMode(c2).value
    ensures GenReg(l, c1, 13).value != GenReg(l, c2, 13).value
  {
    var m1, m2 := CpsrMode(c1).value, CpsrMode(c2).value;
    assert InBank(GenReg(l, c1, 13).value, BankOf(l, m1));
    assert InBank(GenReg(l, c2, 13).value, BankOf(l, m2));
  }

  // ---------------------------------------------------------------------------
  // Instruction fetch and the prefetch buffer
  // ---------------------------------------------------------------------------

  /** A 32-bit read of the sound chip's wave memory (aica_wave_mem_read_32), which is not part of this model. */
  type WaveMem = Word -> Word

  /** arm7_do_fetch_inst: the wave memory's word for addresses up to 0x7fffff (mirrored every 2 MiB), all ones above. */
  function DoFetchInst(mem: WaveMem, addr: Word): (r: Word)
    ensures addr < 0x200000 ==> r == mem(addr)
    ensures addr > 0x7fffff ==> r == 0xffffffff
  {
    if addr <= 0x7fffff then mem(addr % 0x200000) else 0xffffffff
  }

  /** The 8 MiB fetch window holds four mirrors of the 2 MiB wave memory. */
  lemma FetchMirrors(mem: WaveMem, addr: Word)
    requires addr <= 0x5fffff
    ensures DoFetchInst(mem, Wrap(addr + 0x200000)) == DoFetchInst(mem, addr)
  {
  }

  /** Above the window a fetch reads all ones, whatever the memory holds. */
  lemma FetchOutsideWindow(m1: WaveMem, m2: WaveMem, addr: Word)
    requires addr > 0x7fffff
    ensures DoFetchInst(m1, addr) == DoFetchInst(m2, addr) == 0xffffffff
  {
  }

  /** The prefetch state: the two buffered words with their addresses, R15 and the pending extra cycles. */
  datatype Pipe = Pipe(inst0: Word, inst1: Word, pc0: Word, pc1: Word, pc: Word, extraCycles: nat)

  /** arm7_reset_pipeline: refill both stages from R15 and R15+4, move R15 past them and charge two cycles. */
  function ResetPipeline(mem: WaveMem, p: Pipe): (r: Pipe)
    ensures Coherent(mem, r)
    ensures r.pc1 == p.pc && r.pc0 == Wrap(p.pc + 4) && r.pc == Wrap(p.pc + 8) && r.extraCycles == 2
  {
    Pipe(DoFetchInst(mem, Wrap(p.pc + 4)), DoFetchInst(mem, p.pc), Wrap(p.pc + 4), p.pc, Wrap(p.pc + 8), 2)
  }

  /** What arm7_fetch_inst hands to the executor. */
  datatype Fetched = Fetched(inst: Word, extraCycles: nat, pipe: Pipe)

  /**
   * arm7_fetch_inst: deliver the decode stage's word, shift the fetch
   * stage's word and address down, fetch at R15 into the fetch stage and
   * report and clear the pending cycles.  R15 itself does not move.
   */
  function FetchInst(mem: WaveMem, p: Pipe): (r: Fetched)
    ensures r.inst == p.inst1 && r.extraCycles == p.extraCycles
    ensures r.pipe.pc == p.pc && r.pipe.extraCycles == 0
    ensures r.pipe.inst1 == p.inst0 && r.pipe.pc1 == p.pc0
    ensures r.pipe.inst0 == DoFetchInst(mem, p.pc) && r.pipe.pc0 == p.pc
    ensures Coherent(mem, p) ==> Coherent(mem, r.pipe)
  {
    Fetched(p.inst1, p.extraCycles, Pipe(DoFetchInst(mem, p.pc), p.inst0, p.pc, p.pc0, p.pc, 0))
  }

  /** Each buffered word is the word at its recorded address. */
  predicate Coherent(mem: WaveMem, p: Pipe) {
    p.inst0 == DoFetchInst(mem, p.pc0) && p.inst1 == DoFetchInst(mem, p.pc1)
  }

  /** The buffered addresses are the two words just below R15, in order. */
  predicate InStep(p: Pipe) {
    Wrap(p.pc0 + 4) == p.pc && Wrap(p.pc1 + 4) == p.pc0
  }

  /** The executor's advance of R15 by one word. */
  function Advance(p: Pipe): Pipe {
    p.(pc := Wrap(p.pc + 4))
  }

  /** A reset leaves the buffer coherent and in step with R15, holding the restart address in the decode stage. */
  lemma ResetEstablishes(mem: WaveMem, p: Pipe)
    ensures var q := ResetPipeline(mem, p);
      Coherent(mem, q) && InStep(q) && q.pc1 == p.pc && q.extraCycles == 2
  {
  }

  lemma TwoWordsBelow(a: Word, b: Word, c: Word)
    requires Wrap(a + 4) == b && Wrap(b + 4) == c
    ensures a == Wrap(c - 8)
  {
  }

  /** In a coherent, in-step buffer a fetch delivers the word at R15 - 8, the instruction R15 runs two words ahead of. */
  lemma FetchDeliversPcMinus8(mem: WaveMem, p: Pipe)
    requires Coherent(mem, p) && InStep(p)
    ensures FetchInst(mem, p).inst == DoFetchInst(mem, Wrap(p.pc - 8))
  {
    TwoWordsBelow(p.pc1, p.pc0, p.pc);
  }

  /**
   * A fetch keeps the buffer coherent and clears the pending cycles, and
   * once the executor advances R15 by one word the buffer is in step again.
   */
  lemma FetchKeepsStep(mem: WaveMem, p: Pipe)
    requires Coherent(mem, p) && InStep(p)
    ensures var f := FetchInst(mem, p);
      f.pipe.extraCycles == 0 && Coherent(mem, f.pipe) && InStep(Advance(f.pipe))
  {
  }

  /** After a restart at pc, the executor receives the words at pc and pc + 4, charged 2 and then 0 extra cycles. */
  lemma RestartDelivers(mem: WaveMem, p: Pipe)
    ensures var q := ResetPipeline(mem, p);
      var f1 := FetchInst(mem, q);
      var f2 := FetchInst(mem, Advance(f1.pipe));
      f1.inst == DoFetchInst(mem, p.pc) && f1.extraCycles == 2 &&
      f2.inst == DoFetchInst(mem, Wrap(p.pc + 4)) && f2.extraCycles == 0
  {
  }

  /**
   * A fetch hands over the word buffered by the fetch before it, even when
   * the wave memory changed in between: a buffered word is moved, never
   * read again, and the word read at R15 is delivered two fetches later.
   */
  lemma BufferedWordMoves(m1: WaveMem, m2: WaveMem, m3: WaveMem, p: Pipe)
    ensures var q := Advance(FetchInst(m1, p).pipe);
      FetchInst(m2, q).inst == p.inst0 &&
      FetchInst(m3, Advance(FetchInst(m2, q).pipe)).inst == DoFetchInst(m1, p.pc)
  {
  }

  // ---------------------------------------------------------------------------
  // The CPU state
  // ---------------------------------------------------------------------------

  /** The part of struct arm7 that banking and prefetch touch. */
  class Arm7Cpu {
    const layout: RegLayout
    const reg: array<Word>
    const pipeline: array<Word>
    const pipelinePc: array<Word>
    var extraCycles: nat

    ghost predicate Valid()
      reads this
    {
      LayoutOk(layout) && reg.Length == layout.count && PcIdx(layout) < reg.Length &&
      pipeline.Length == 2 && pipelinePc.Length == 2 &&
      pipeline != pipelinePc && reg != pipeline && reg != pipelinePc
    }

    /** The prefetch state held in the arrays and fields. */
    function State(): Pipe
      reads this, reg, pipeline, pipelinePc
      requires Valid()
    {
      Pipe(pipeline[0], pipeline[1], pipelinePc[0], pipelinePc[1], reg[PcIdx(layout)], extraCycles)
    }

    constructor (l: RegLayout)
      requires LayoutOk(l)
      ensures Valid() && layout == l && fresh(reg) && fresh(pipeline) && fresh(pipelinePc)
      ensures forall i | 0 <= i < reg.Length :: reg[i] == 0
      ensures State() == Pipe(0, 0, 0, 0, 0, 0)
    {
      layout := l;
      reg := new Word[l.count](_ => 0);
      pipeline := new Word[2](_ => 0);
      pipelinePc := new Word[2](_ => 0);
      extraCycles := 0;
    }

    /** arm7_reset_pipeline, in place; no register other than R15 changes. */
    method Reset(mem: WaveMem)
      requires Valid()
      modifies this`extraCycles, reg, pipeline, pipelinePc
      ensures Valid() && State() == ResetPipeline(mem, old(State()))
      ensures forall i | 0 <= i < reg.Length && i != PcIdx(layout) :: reg[i] == old(reg[i])
    {
      var pc: Word := reg[PcIdx(layout)];
      extraCycles := 2;
      pipelinePc[0] := Wrap(pc as int + 4);
      pipeline[0] := DoFetchInst(mem, Wrap(pc as int + 4));
      pipelinePc[1] := pc;
      pipeline[1] := DoFetchInst(mem, pc);
      pc := Wrap(pc as int + 8);
      reg[PcIdx(layout)] := pc;
    }

    /** arm7_fetch_inst, in place; the register file does not change. */
    method Fetch(mem: WaveMem) returns (inst: Word, cycles: nat)
      requires Valid()
      modifies this`extraCycles, pipeline, pipelinePc
      ensures Valid() && Fetched(inst, cycles, State()) == FetchInst(mem, old(State()))
    {
      var pc := reg[PcIdx(layout)];
      var fetched := DoFetchInst(mem, pc);
      var newPc := pipelinePc[0];
      var newInst := pipeline[0];
      inst := pipeline[1];
      pipelinePc[0] := pc;
      pipeline[0] := fetched;
      pipelinePc[1] := newPc;
      pipeline[1] := newInst;
      cycles := extraCycles;
      extraCycles := 0;
    }
  }
}
