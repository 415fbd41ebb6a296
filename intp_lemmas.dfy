/**
 * Properties of the interpreter model: how a run of a block can end, that a
 * block's behaviour up to its exit does not depend on what follows, and the
 * per-opcode promises of the comparison, conditional-store and shift
 * instructions.
 */
module CodeBlockIntpLemmas {
  import opened Errors
  import opened CodeBlockIntp

  /** The slots and external state a run carries on with after instruction pc, when it does not stop there. */
  function Next<E>(eff: Effect<E>, s: seq<Slot>): seq<Slot>
    requires eff.Update? ==> eff.slot < |s|
  {
    if eff.Update? then Apply(s, eff.slot, eff.val) else s
  }

  /** One step of a run: what instruction pc's effect makes of the rest of the run. */
  lemma StepOn<E(!new)>(sem: Semantics<E>, insts: seq<JitInst>, pc: nat, s: seq<Slot>, env: E)
    requires pc < |insts| && UpdatesInRange(sem)
    ensures var eff := sem(insts[pc], s, env);
      (eff.Exit? ==> RunFrom(sem, insts, pc, s, env) == RunResult(Jumped(eff.addr), s, env, pc + 1)) &&
      (eff.Fault? ==> RunFrom(sem, insts, pc, s, env) == RunResult(Faulted(eff.code), s, env, pc + 1)) &&
      ((eff.Proceed? || eff.Update?) ==>
         |Next(eff, s)| == |s| && RunFrom(sem, insts, pc, s, env) == RunFrom(sem, insts, pc + 1, Next(eff, s), eff.env))
  {
    var eff := sem(insts[pc], s, env);
    assert eff.Update? ==> eff.slot < |s|;
  }

  /** An instruction that updates a slot hands the rest of the run the updated slots. */
  lemma RunUpdate<E(!new)>(sem: Semantics<E>, insts: seq<JitInst>, pc: nat, s: seq<Slot>, env: E,
                           n: SlotIdx, v: bv32, env': E)
    requires pc < |insts| && UpdatesInRange(sem) && n < |s|
    requires sem(insts[pc], s, env) == Update(n, v, env')
    ensures RunFrom(sem, insts, pc, s, env) == RunFrom(sem, insts, pc + 1, Apply(s, n, v), env')
  {
  }

  /** An instruction that leaves the block ends the run there. */
  lemma RunExit<E(!new)>(sem: Semantics<E>, insts: seq<JitInst>, pc: nat, s: seq<Slot>, env: E, a: bv32)
    requires pc < |insts| && UpdatesInRange(sem)
    requires sem(insts[pc], s, env) == Exit(a)
    ensures RunFrom(sem, insts, pc, s, env) == RunResult(Jumped(a), s, env, pc + 1)
  {
  }

  /** A run that falls off the end has run every remaining instruction. */
  lemma {:induction false} FellOffRunsAll<E(!new)>(sem: Semantics<E>, insts: seq<JitInst>, pc: nat, s: seq<Slot>, env: E)
    requires pc <= |insts| && UpdatesInRange(sem)
    requires RunFrom(sem, insts, pc, s, env).exit.FellOff?
    ensures RunFrom(sem, insts, pc, s, env).steps == |insts|
    decreases |insts| - pc
  {
    if pc < |insts| {
      StepOn(sem, insts, pc, s, env);
      var eff := sem(insts[pc], s, env);
      FellOffRunsAll(sem, insts, pc + 1, Next(eff, s), eff.env);
    }
  }

  /**
   * A run ends with an address only by executing a JUMP, and stops right after
   * it; the address is the JUMP slot's value at that moment.
   */
  lemma {:induction false} JumpedAtJump<E(!new)>(sem: Semantics<E>, insts: seq<JitInst>, pc: nat, s: seq<Slot>, env: E)
    requires pc <= |insts| && UpdatesInRange(sem) && ExitsByJump(sem)
    requires RunFrom(sem, insts, pc, s, env).exit.Jumped?
    ensures var r := RunFrom(sem, insts, pc, s, env);
      pc < r.steps && insts[r.steps - 1].Jump? && insts[r.steps - 1].jmpAddrSlot < |r.slots| &&
      r.exit.addr == r.slots[insts[r.steps - 1].jmpAddrSlot].u32val
    decreases |insts| - pc
  {
    assert pc < |insts|;
    StepOn(sem, insts, pc, s, env);
    var eff := sem(insts[pc], s, env);
    if !eff.Exit? {
      JumpedAtJump(sem, insts, pc + 1, Next(eff, s), eff.env);
    }
  }

  /** A block with no JUMP never yields an address: it either fails on the way or raises ERROR_INTEGRITY at the end. */
  lemma NoJumpNoAddress<E(!new)>(x: Externals<E>, insts: seq<JitInst>, s: seq<Slot>, env: E)
    requires forall k | 0 <= k < |insts| :: !insts[k].Jump?
    ensures var r := Run(x, insts, s, env);
      ExitResult(r.exit).Err? && (r.exit.Faulted? || (r.exit == FellOff && r.steps == |insts|))
  {
    var r := Run(x, insts, s, env);
    if r.exit.Jumped? {
      JumpedAtJump(Step(x), insts, 0, s, env);
      assert false;
    } else if r.exit.FellOff? {
      FellOffRunsAll(Step(x), insts, 0, s, env);
    }
  }

  /**
   * Instructions after the point where a run ends are never looked at; a run
   * that falls off the end of `insts` carries on into `more` with the slots
   * and external state it reached.
   */
  lemma {:induction false} RunExtends<E(!new)>(sem: Semantics<E>, insts: seq<JitInst>, more: seq<JitInst>, pc: nat,
                                         s: seq<Slot>, env: E)
    requires pc <= |insts| && UpdatesInRange(sem)
    ensures var r := RunFrom(sem, insts, pc, s, env);
      RunFrom(sem, insts + more, pc, s, env) ==
        (if r.exit.FellOff? then RunFrom(sem, insts + more, |insts|, r.slots, r.env) else r)
    decreases |insts| - pc
  {
    if pc < |insts| {
      assert (insts + more)[pc] == insts[pc];
      StepOn(sem, insts, pc, s, env);
      StepOn(sem, insts + more, pc, s, env);
      var eff := sem(insts[pc], s, env);
      if eff.Proceed? || eff.Update? {
        RunExtends(sem, insts, more, pc + 1, Next(eff, s), eff.env);
      }
    }
  }

  /** On an instruction that fits the slots, the interpreter's semantics is InstEffect. */
  lemma StepIsInstEffect<E(!new)>(x: Externals<E>, inst: JitInst, s: seq<Slot>, env: E)
    requires InstFits(inst, |s|)
    ensures Step(x)(inst, s, env) == InstEffect(x, inst, s, env)
  {
  }

  /**
   * Only an instruction with a destination slot computes a value; every
   * refusal is ERROR_INTEGRITY except a SHAD whose shift amount is undefined
   * behaviour in C; FALLBACK and DISCARD_SLOT always go on.
   */
  lemma ComputeOutcomes<E>(x: Externals<E>, inst: JitInst, s: seq<Slot>, env: E)
    requires !inst.Jump? && InstFits(inst, |s|)
    ensures var r := Compute(x, inst, s, env);
      (r.Write? ==> Dest(inst).Some?) &&
      (r.Stop? ==> r.code == ErrorIntegrity || (inst.Shad? && r.code == UndefinedBehaviour)) &&
      (inst.Fallback? || inst.DiscardSlot? ==> r.Continue?)
  {
  }

  /**
   * slot_u32 guards every read: an instruction that reads a slot other than
   * a U32 slot fails with that check's ERROR_INTEGRITY before it does
   * anything else.  The reads made only when a condition holds (CMOV's
   * source, a comparison's destination) are covered by CondStoreOnlyOnMatch
   * and CompareAccumulates; the destination an instruction only writes is
   * covered by WriteNeedsU32.
   */
  lemma ReadsNeedU32<E>(x: Externals<E>, inst: JitInst, s: seq<Slot>, env: E, i: SlotIdx)
    requires InstFits(inst, |s|) && i in Reads(inst) && i < |s|
    requires SlotU32(s, i).Err?
    ensures InstEffect(x, inst, s, env) == Fault(SlotU32(s, i).code)
  {
  }

  /**
   * slot_u32 guards every write too: a value computed for a destination that
   * is not a U32 slot is never stored, silently or otherwise; the instruction
   * fails with ERROR_INTEGRITY.
   */
  lemma WriteNeedsU32<E>(x: Externals<E>, inst: JitInst, s: seq<Slot>, env: E)
    requires !inst.Jump? && InstFits(inst, |s|)
    requires Compute(x, inst, s, env).Write? && s[Dest(inst).value].tp != IntpSlotU32
    ensures InstEffect(x, inst, s, env) == Fault(ErrorIntegrity)
  {
    ComputeOutcomes(x, inst, s, env);
  }

  /**
   * A comparison never clears anything: when it writes, it writes its
   * destination with bit 0 set and every other bit as it was, and it writes
   * exactly when the comparison holds; otherwise it changes nothing at all,
   * whatever the destination slot holds.
   */
  lemma CompareAccumulates<E>(x: Externals<E>, inst: JitInst, s: seq<Slot>, env: E)
    requires InstFits(inst, |s|) && (inst.SetCmp? || inst.SetCmpConst?)
    requires s[inst.slotLhs].tp == IntpSlotU32
    requires inst.SetCmp? ==> s[inst.slotRhs].tp == IntpSlotU32
    ensures var rhs := if inst.SetCmp? then s[inst.slotRhs].u32val else inst.immRhs;
      InstEffect(x, inst, s, env) ==
        if !CmpHolds(inst.cmpOp, s[inst.slotLhs].u32val, rhs) then Proceed(env)
        else if s[inst.slotDst].tp != IntpSlotU32 then Fault(ErrorIntegrity)
        else Update(inst.slotDst, s[inst.slotDst].u32val | 1, env)
  {
    var rhs := if inst.SetCmp? then s[inst.slotRhs].u32val else inst.immRhs;
    var holds := CmpHolds(inst.cmpOp, s[inst.slotLhs].u32val, rhs);
    assert Dest(inst) == Some(inst.slotDst);
    if !holds {
      assert Compute(x, inst, s, env) == Continue(env);
    } else if s[inst.slotDst].tp != IntpSlotU32 {
      assert Compute(x, inst, s, env) == Stop(ErrorIntegrity);
    } else {
      assert Compute(x, inst, s, env) == Write(s[inst.slotDst].u32val | 1, env);
    }
  }

  /** Bit 0 of a comparison's destination, once set, stays set, and the other bits are never touched. */
  lemma CompareKeepsBits<E>(x: Externals<E>, inst: JitInst, s: seq<Slot>, env: E)
    requires InstFits(inst, |s|) && (inst.SetCmp? || inst.SetCmpConst?)
    ensures var r := InstEffect(x, inst, s, env);
      (r.Update? ==> r.val & 1 == 1 && r.val & !1 == s[inst.slotDst].u32val & !1 && r.env == env) &&
      (r.Proceed? ==> r.env == env)
  {
  }

  /** CMOV and CSET change nothing unless bit 0 of the flag slot equals the required polarity. */
  lemma CondStoreOnlyOnMatch<E>(x: Externals<E>, inst: JitInst, s: seq<Slot>, env: E)
    requires InstFits(inst, |s|) && (inst.Cmov? || inst.Cset?)
    requires s[inst.flagSlot].tp == IntpSlotU32
    ensures var r := InstEffect(x, inst, s, env);
      if s[inst.flagSlot].u32val & 1 != inst.tFlag then r == Proceed(env)
      else if s[inst.dstSlot].tp != IntpSlotU32 || (inst.Cmov? && s[inst.srcSlot].tp != IntpSlotU32)
      then r == Fault(ErrorIntegrity)
      else r == Update(inst.dstSlot, if inst.Cmov? then s[inst.srcSlot].u32val else inst.srcVal, env)
  {
  }

  /** SHAD by 3 shifts left, by -3 shifts right arithmetically, and by 0 leaves the value as it was. */
  lemma ShadExamples(v: bv32)
    ensures ShadValue(0x10, 3) == Ok(0x80)
    ensures ShadValue(0x8000_0000, 0xFFFF_FFFD) == Ok(0xF000_0000)
    ensures ShadValue(v, 0) == Ok(v)
  {
  }

  /** The signed comparisons read the operands as two's complement: 3 > -1, and INT32_MIN is below INT32_MAX. */
  lemma SignedCompareExamples()
    ensures SignedGt(5, 3) && SignedGt(3, 0xFFFF_FFFF) && !CmpHolds(GtUnsigned, 3, 0xFFFF_FFFF)
    ensures !SignedGt(0x8000_0000, 0x7FFF_FFFF) && SignedGe(0xFFFF_FFFF, 0xFFFF_FFFF)
  {
  }

  /** DISCARD_SLOT has no run-time effect, whatever the slot holds. */
  lemma DiscardChangesNothing<E>(x: Externals<E>, d: SlotIdx, s: seq<Slot>, env: E)
    ensures InstEffect(x, DiscardSlot(d), s, env) == Proceed(env)
  {
  }

  /** A two-slot ALU instruction whose operands are U32 slots writes `dst op src` to its destination. */
  lemma AluWritesDest<E>(x: Externals<E>, op: BinOp, src: SlotIdx, dst: SlotIdx, s: seq<Slot>, env: E)
    requires src < |s| && dst < |s|
    requires s[src].tp == IntpSlotU32 && s[dst].tp == IntpSlotU32
    ensures InstEffect(x, Alu(op, src, dst), s, env) == Update(dst, BinValue(op, s[dst].u32val, s[src].u32val), env)
  {
  }

  /** Slot arithmetic wraps modulo 2^32: ADD past the top, SUB below zero, ADD_CONST32 and MUL_U32 overflowing. */
  lemma WrapExamples<E>(x: Externals<E>, env: E)
    ensures BinValue(OpAdd, 0xFFFF_FFFF, 2) == 1
    ensures BinValue(OpSub, 0, 1) == 0xFFFF_FFFF
    ensures ConstValue(OpAddConst, 0x8000_0000, 0x8000_0000) == 0
    ensures InstEffect(x, MulU32(0, 1, 0), [Slot(IntpSlotU32, 0x1_0000), Slot(IntpSlotU32, 0x1_0001)], env)
      == Update(0, 0x1_0000, env)
  {
  }

  /** NOT is the bitwise complement, so it undoes itself, and SLOT_TO_BOOL is idempotent. */
  lemma TransformFacts(v: bv32)
    ensures UnValue(OpNot, v) ^ v == 0xFFFF_FFFF
    ensures UnValue(OpNot, UnValue(OpNot, v)) == v
    ensures UnValue(OpToBool, UnValue(OpToBool, v)) == UnValue(OpToBool, v)
  {
  }

  /** Under the interpreter's semantics, such an instruction leaves the rest of a run to the updated slots. */
  lemma AluStep<E(!new)>(x: Externals<E>, op: BinOp, src: SlotIdx, dst: SlotIdx, s: seq<Slot>, env: E)
    requires src < |s| && dst < |s|
    requires s[src].tp == IntpSlotU32 && s[dst].tp == IntpSlotU32
    ensures Step(x)(Alu(op, src, dst), s, env) == Update(dst, BinValue(op, s[dst].u32val, s[src].u32val), env)
  {
    assert InstFits(Alu(op, src, dst), |s|);
    AluWritesDest(x, op, src, dst, s, env);
  }

  /** Subtraction undoes addition modulo 2^32. */
  lemma SubUndoesAdd(d: bv32, v: bv32)
    ensures BinValue(OpSub, BinValue(OpAdd, d, v), v) == d
  {
    assert BinValue(OpAdd, d, v) == d + v;
    assert BinValue(OpSub, d + v, v) == d + v - v;
  }

  /** Writing a slot's old value back undoes a write to it. */
  lemma ApplyBack(s: seq<Slot>, n: SlotIdx, v: bv32)
    requires n < |s|
    ensures Apply(Apply(s, n, v), n, s[n].u32val) == s
  {
    assert forall i | 0 <= i < |s| :: Apply(Apply(s, n, v), n, s[n].u32val)[i] == s[i];
  }

  /**
   * ADD then SUB of the same source gives the destination back, whatever
   * wrapped around in between: slot arithmetic is modulo 2^32.
   */
  lemma AddThenSubRestores<E(!new)>(x: Externals<E>, src: SlotIdx, dst: SlotIdx, s: seq<Slot>, env: E)
    requires src < |s| && dst < |s| && src != dst
    requires s[src].tp == IntpSlotU32 && s[dst].tp == IntpSlotU32
    ensures var insts := [Alu(OpAdd, src, dst), Alu(OpSub, src, dst)];
      WellFormed(insts, |s|) && Run(x, insts, s, env) == RunResult(FellOff, s, env, 2)
  {
    var insts := [Alu(OpAdd, src, dst), Alu(OpSub, src, dst)];
    assert InstFits(insts[0], |s|) && InstFits(insts[1], |s|);
    var d, v := s[dst].u32val, s[src].u32val;
    var sum := BinValue(OpAdd, d, v);
    var s1 := Apply(s, dst, sum);
    assert s1[src] == s[src] && s1[dst].u32val == sum;
    AluStep(x, OpAdd, src, dst, s, env);
    AluStep(x, OpSub, src, dst, s1, env);
    SubUndoesAdd(d, v);
    ApplyBack(s, dst, sum);
    RunUpdate(Step(x), insts, 0, s, env, dst, sum, env);
    RunUpdate(Step(x), insts, 1, s1, env, dst, d, env);
  }

  /** CompareAccumulates, under the interpreter's semantics. */
  lemma CompareStep<E(!new)>(x: Externals<E>, inst: JitInst, s: seq<Slot>, env: E)
    requires InstFits(inst, |s|) && (inst.SetCmp? || inst.SetCmpConst?)
    requires s[inst.slotLhs].tp == IntpSlotU32 && s[inst.slotDst].tp == IntpSlotU32
    requires inst.SetCmp? ==> s[inst.slotRhs].tp == IntpSlotU32
    ensures var rhs := if inst.SetCmp? then s[inst.slotRhs].u32val else inst.immRhs;
      Step(x)(inst, s, env) ==
        if CmpHolds(inst.cmpOp, s[inst.slotLhs].u32val, rhs)
        then Update(inst.slotDst, s[inst.slotDst].u32val | 1, env)
        else Proceed(env)
  {
    CompareAccumulates(x, inst, s, env);
    StepIsInstEffect(x, inst, s, env);
  }

  lemma SetBitZero(v: bv32)
    requires v == 0 || v == 1
    ensures v | 1 == 1
  {
  }

  /**
   * Comparison results accumulate: with destination slot 2 cleared,
   * SET_GT_SIGNED of slots 0 and 1 sets it to 1 when slot 0 is the greater,
   * and a following SET_EQ of slot 1 with itself leaves it 1.
   */
  lemma CompareSetsAccumulate<E(!new)>(x: Externals<E>, s: seq<Slot>, env: E)
    requires |s| == 3 && forall i | 0 <= i < 3 :: s[i].tp == IntpSlotU32
    requires s[2].u32val == 0 && SignedGt(s[0].u32val, s[1].u32val)
    ensures var insts := [SetCmp(GtSigned, 0, 1, 2), SetCmp(Eq, 1, 1, 2)];
      WellFormed(insts, |s|) && Run(x, insts, s, env) == RunResult(FellOff, Apply(s, 2, 1), env, 2)
  {
    var insts := [SetCmp(GtSigned, 0, 1, 2), SetCmp(Eq, 1, 1, 2)];
    assert InstFits(insts[0], 3) && InstFits(insts[1], 3);
    var s1 := Apply(s, 2, 1);
    SetBitZero(0);
    SetBitZero(1);
    CompareStep(x, insts[0], s, env);
    CompareStep(x, insts[1], s1, env);
    assert Apply(s1, 2, 1) == s1;
    RunUpdate(Step(x), insts, 0, s, env, 2, 1, env);
    RunUpdate(Step(x), insts, 1, s1, env, 2, 1, env);
  }
}
