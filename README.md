# WashingtonDC core, modelled in Dafny

This project models four self-contained parts of the WashingtonDC Dreamcast
emulator and proves properties of them.

- **Translation cache** (`code_cache.dfy`, module `CodeCache`). It maps a guest
  address to a cache entry holding a compiled block, in two levels:
  - an ordered store that creates a blank entry on first lookup (an AVL tree in
    the emulator, a `map` here);
  - above it, a direct-mapped hash table whose slots are overwritten on
    collision.

  Invalidation retires the current tree onto a list of old generations, and
  garbage collection tears that list down. Entry construction is counted
  against a ceiling that acts as a dead-man's switch.
- **Block interpreter** (`code_block_intp.dfy`, module `CodeBlockIntp`, with
  lemmas in `intp_lemmas.dfy`, module `CodeBlockIntpLemmas`). Compiling a block
  copies its IL instruction list and builds an array of typed slots. Executing
  it runs the straight-line list and updates 32-bit slots in place. It leaves
  only through a JUMP; running out of instructions is an integrity error. The
  loop `IntpBlock.Exec` is proved against the functional semantics `Run`, and
  the properties of the run are lemmas about `Run`/`RunFrom`.
- **GD-ROM register codec** (`gdrom_reg.dfy`, module `GdromReg`). It covers:
  - the bit encoders of the error, status and interrupt-reason registers, each
    with a decoder partner and a round-trip lemma;
  - the decoders of the features, sector-count and device-control registers;
  - the 16-bit byte-count register, reached through two byte ports;
  - the index dispatch of 8- and 32-bit reads and writes;
  - the GDAPRO security-code gate and the GDSTAR address mask.

  `GdromCtxt` is the context whose fields the write handlers update in place.
  Each of its methods is proved equal to a pure function on a `RegFile`
  snapshot.
- **ARM7 register banking and prefetch** (`arm7.dfy`, module `Arm7`).
  - `arm7_gen_reg` maps a logical register to a physical slot under the CPSR's
    mode.
  - The two-entry prefetch buffer is refilled by `arm7_reset_pipeline` and
    shifted by `arm7_fetch_inst`.
  - `Arm7Cpu` keeps the register file and the buffer in arrays and updates them
    in place.

`errors.dfy` (module `Errors`) holds the fatal error codes and the `Result`
type that carries them; the model writes every `RAISE_ERROR` as an `Err`
result.

External collaborators are parameters:
- The interpreter's fallback handlers, CALL_FUNC targets, memory map and raw
  LOAD/STORE locations are the arrows of `Externals<E>`, over an abstract
  host state `E`.
- The ARM7 wave memory is a function `WaveMem`.
- The GD-ROM drive state and disc type are arguments of the read functions.
- GD-ROM data-port and command traffic comes back as an outcome instead of
  being performed.

Where the code and its own comments disagree, the model
follows the code:
- **Entry ceiling.** The cache raises `ERROR_INTEGRITY` in the construction that
  brings the counter to `MAX_ENTRIES`, that is, on the `MAX_ENTRIES`-th insert of
  a generation, not on the one after it. So a valid cache always holds fewer than
  `MaxEntries` entries.
- **Pipeline depth.** The comment in `arm7.h` describes three buffered stages,
  but the code buffers two. At execution time `pipeline[1]` holds the word at
  R15 - 8 and `pipeline[0]` the word at R15 - 4 (`FetchDeliversPcMinus8`).
- **Initialisation.** `code_cache_init` only reinitialises the tree. The model's
  constructor also starts with an empty table, an empty retired list and a zero
  counter, which the emulator gets from zeroed storage.

## Model

| member | source | states |
|---|---|---|
| CodeCache.HashIdx | src/jit/code_cache.c:169 | the hash slot of an address is inside the table, and an address below the table length is its own slot |
| CodeCache.CacheEntry.constructor | src/jit/code_cache.c:76-87 | a constructed entry carries its key and a fresh interpreter block as code_block_intp_init leaves it: valid, with no instructions, no slots and a zero cycle count |
| CodeCache.CodeCache.constructor | src/jit/code_cache.c:112-118 | a new cache satisfies the invariant, with an empty tree, every hash slot empty, nothing retired and the counter at zero |
| CodeCache.CodeCache.FindSlow | src/jit/code_cache.c:76-182 | a present address returns its tree entry and changes nothing; an absent one constructs an entry and increments the counter, failing with ERROR_INTEGRITY and no insertion exactly when the counter has reached MaxEntries, and otherwise inserting the fresh entry, whose block is blank, under that key and keeping the invariant |
| CodeCache.CodeCache.Find | src/jit/code_cache.c:168-177 | the hash entry is returned unchanged only when the slot is non-null and keyed by addr; otherwise the answer is the slow path's, a failure leaving the tree as it was and a new entry holding a blank block; afterwards slot HashIdx(addr) holds the returned entry, no other slot changes, and the hash stays a subset of the tree |
| CodeCache.CodeCache.InvalidateAll | src/jit/code_cache.c:125-152 | the old tree is pushed on the front of the retired list intact, the tree is empty, every hash slot is cleared and the counter is zero |
| CodeCache.CodeCache.Gc | src/jit/code_cache.c:154-166 | the retired list ends empty, each retired tree is torn down exactly once in list order, and the current tree and counter are untouched |
| CodeCache.CodeCache.Cleanup | src/jit/code_cache.c:120-123 | invalidate then collect: every generation, the current one included, is torn down and nothing stays retired |
| CodeCache.FindTwice | src/jit/code_cache.c:168-177 | a second lookup of the same address returns the same entry as the first, which is the tree's entry for it |
| CodeBlockIntp.Sar | src/libwashdc/jit/jit_intp/code_block_intp.c:250-254 | an arithmetic right shift keeps the sign bit, equals the logical shift on non-negative values, and sets every vacated top bit of a negative one |
| CodeBlockIntp.SarOfNegative | src/libwashdc/jit/jit_intp/code_block_intp.c:250-254 | on a negative value the arithmetic shift is exactly the logical shift with the k vacated top bits set, so below them the two agree |
| CodeBlockIntp.SignExtend16 | src/libwashdc/jit/jit_intp/code_block_intp.c:132-136 | the low 16 bits of the result are the operand's |
| CodeBlockIntp.SignExtend16Top | src/libwashdc/jit/jit_intp/code_block_intp.c:132-136 | the top 16 bits of the result are all copies of bit 15 |
| CodeBlockIntp.ToBool | src/libwashdc/jit/jit_intp/code_block_intp.c:235-238 | SLOT_TO_BOOL yields 0 or 1, and 1 exactly when the slot is non-zero |
| CodeBlockIntp.ShadValue | src/libwashdc/jit/jit_intp/code_block_intp.c:309-319 | SHAD shifts left by an amount that is non-negative as a signed value and arithmetically right (Sar) by the negation of a negative one; it fails exactly when that shift is 32 or more either way, and the failure is reported as undefined behaviour |
| CodeBlockIntp.SlotU32 | src/libwashdc/jit/jit_intp/code_block_intp.c:79-84 | a slot's integer value is available exactly when the slot is a U32 slot; otherwise the result is ERROR_INTEGRITY; a JUMP's exit reads its address through it |
| CodeBlockIntp.InstEffect | src/libwashdc/jit/jit_intp/code_block_intp.c:91-320 | an instruction writes only its own destination, and only when that is a U32 slot; it leaves the block exactly when it is a JUMP through a U32 slot, with that slot's value; a JUMP through any other slot is ERROR_INTEGRITY |
| CodeBlockIntp.Apply | src/libwashdc/jit/jit_intp/code_block_intp.c:181-183 | a slot write changes the destination's value and nothing else, and no slot's type |
| CodeBlockIntp.ExitResult | src/libwashdc/jit/jit_intp/code_block_intp.c:323-325 | a run yields an address exactly when it ended by a JUMP, and then the JUMP's address; a fault yields its own error code; falling off the end is ERROR_INTEGRITY |
| CodeBlockIntp.Step | src/libwashdc/jit/jit_intp/code_block_intp.c:96-97 | the interpreter's semantics writes only slots that exist and leaves only by a JUMP, with the JUMP slot's value |
| CodeBlockIntp.RunFrom | src/libwashdc/jit/jit_intp/code_block_intp.c:86-90 | a run from position pc executes at most the remaining instructions and keeps the slot count and every slot's type |
| CodeBlockIntp.Run | src/libwashdc/jit/jit_intp/code_block_intp.c:86-90 | a run of the whole block executes at most its instructions and keeps the slot count and every slot's type |
| CodeBlockIntp.IntpSlotType | src/libwashdc/jit/jit_intp/code_block_intp.c:64-76 | U32, FLOAT and DOUBLE each map to their own slot kind and only those kinds map to it; any other IL kind is ERROR_UNIMPLEMENTED |
| CodeBlockIntp.IntpBlock.constructor | src/libwashdc/jit/jit_intp/code_block_intp.c:33-35 | a new block is all zero: no instructions, no slots, no cycles |
| CodeBlockIntp.IntpBlock.Compile | src/libwashdc/jit/jit_intp/code_block_intp.c:44-77 | the instruction list is copied and the counts recorded; compilation succeeds exactly when no slot kind is unknown, and then every slot is zeroed with its mapped kind; an unknown kind is ERROR_UNIMPLEMENTED |
| CodeBlockIntp.IntpBlock.Exec | src/libwashdc/jit/jit_intp/code_block_intp.c:86-326 | the loop returns exactly what Run of the block on the old slots returns, and leaves the slots and host state that Run ends with |
| CodeBlockIntpLemmas.StepOn | src/libwashdc/jit/jit_intp/code_block_intp.c:90-320 | one iteration: an exit or a fault ends the run at pc + 1; anything else continues at pc + 1 with the updated slots |
| CodeBlockIntpLemmas.FellOffRunsAll | src/libwashdc/jit/jit_intp/code_block_intp.c:90 | a run that falls off the end has executed every remaining instruction |
| CodeBlockIntpLemmas.JumpedAtJump | src/libwashdc/jit/jit_intp/code_block_intp.c:96-97 | a run that yields an address stopped right after a JUMP, and the address is that JUMP slot's value at that moment |
| CodeBlockIntpLemmas.NoJumpNoAddress | src/libwashdc/jit/jit_intp/code_block_intp.c:323-325 | a block without a JUMP never yields an address: it faults or runs all its instructions and fails with ERROR_INTEGRITY |
| CodeBlockIntpLemmas.RunExtends | src/libwashdc/jit/jit_intp/code_block_intp.c:86-90 | instructions after the point where a run stops are never looked at; a run that falls off continues into appended instructions from where it got to |
| CodeBlockIntpLemmas.ComputeOutcomes | src/libwashdc/jit/jit_intp/code_block_intp.c:91-320 | only an instruction with a destination slot computes a value; every refusal is ERROR_INTEGRITY except a SHAD by an undefined amount; FALLBACK and DISCARD_SLOT always go on |
| CodeBlockIntpLemmas.ReadsNeedU32 | src/libwashdc/jit/jit_intp/code_block_intp.c:79-320 | every slot an instruction reads unconditionally (JUMP's address, CMOV's and CSET's flag, CALL_FUNC's argument, the address and value slots of the slot reads and writes, the ALU, shift, comparison, MUL_U32 and SHAD operands) must be a U32 slot: otherwise the instruction fails with slot_u32's ERROR_INTEGRITY and nothing else happens |
| CodeBlockIntpLemmas.WriteNeedsU32 | src/libwashdc/jit/jit_intp/code_block_intp.c:79-320 | a value computed for a destination that is not a U32 slot (SET_SLOT, the constant-address and slot reads, LOAD_SLOT16/LOAD_SLOT, MUL_U32 and every other writer) is never stored: the instruction fails with ERROR_INTEGRITY |
| CodeBlockIntpLemmas.CompareAccumulates | src/libwashdc/jit/jit_intp/code_block_intp.c:261-302 | every SET_* variant changes nothing when its comparison fails, whatever its destination holds; when it holds it ORs 1 into a U32 destination and is ERROR_INTEGRITY on any other |
| CodeBlockIntpLemmas.CompareKeepsBits | src/libwashdc/jit/jit_intp/code_block_intp.c:261-302 | a comparison's write sets bit 0, keeps every other bit of the destination and leaves the host state alone |
| CodeBlockIntpLemmas.CondStoreOnlyOnMatch | src/libwashdc/jit/jit_intp/code_block_intp.c:98-113 | CMOV and CSET change nothing unless bit 0 of the flag equals the polarity; then they store the source or immediate, or fail if a slot is not U32 |
| CodeBlockIntpLemmas.ShadExamples | src/libwashdc/jit/jit_intp/code_block_intp.c:309-319 | SHAD by 3 shifts left, by -3 turns 0x80000000 into 0xF0000000, and by 0 is the identity |
| CodeBlockIntpLemmas.SignedCompareExamples | src/libwashdc/jit/jit_intp/code_block_intp.c:267-272 | signed comparisons read two's complement: 3 > -1 signed but not unsigned, and INT32_MIN is not above INT32_MAX |
| CodeBlockIntpLemmas.DiscardChangesNothing | src/libwashdc/jit/jit_intp/code_block_intp.c:231-234 | DISCARD_SLOT has no effect at all |
| CodeBlockIntpLemmas.AluWritesDest | src/libwashdc/jit/jit_intp/code_block_intp.c:181-230 | a two-slot ALU instruction on U32 slots writes `dst op src` to its destination |
| CodeBlockIntpLemmas.WrapExamples | src/libwashdc/jit/jit_intp/code_block_intp.c:181-195 | ADD, SUB and ADD_CONST32 wrap modulo 2^32, and a MUL_U32 instruction on two U32 slots stores the wrapped product in its destination |
| CodeBlockIntpLemmas.TransformFacts | src/libwashdc/jit/jit_intp/code_block_intp.c:235-243 | NOT is the bitwise complement and its own inverse; SLOT_TO_BOOL is idempotent |
| CodeBlockIntpLemmas.SubUndoesAdd | src/libwashdc/jit/jit_intp/code_block_intp.c:181-190 | subtracting what was added gives the original value back, modulo 2^32 |
| CodeBlockIntpLemmas.AddThenSubRestores | src/libwashdc/jit/jit_intp/code_block_intp.c:181-190 | a block of ADD then SUB of the same source runs both instructions and ends with every slot as it started |
| CodeBlockIntpLemmas.CompareSetsAccumulate | src/libwashdc/jit/jit_intp/code_block_intp.c:261-284 | a SET_GT_SIGNED that holds followed by a SET_EQ leaves the cleared destination at 1 and every other slot unchanged |
| GdromReg.ErrorReg | src/hw/gdrom/gdrom_reg.c:567-582 | the error register uses only bits 0-7 |
| GdromReg.ErrorRegRoundTrip | src/hw/gdrom/gdrom_reg.c:552-582 | each flag can be read back from its bit, MCR 3, ABRT 2, EOMF 1 and ILI 0, and the sense key's low four bits from bits 4-7 |
| GdromReg.StatusReg | src/hw/gdrom/gdrom_reg.c:618-637 | bit 1 and every bit above 7 of the status register are always clear |
| GdromReg.StatusRegRoundTrip | src/hw/gdrom/gdrom_reg.c:590-637 | every status flag can be read back from its own bit, BSY 7 through CHECK 0 |
| GdromReg.IntReasonReg | src/hw/gdrom/gdrom_reg.c:733-742 | the interrupt-reason register only ever sets bits 0 and 1 |
| GdromReg.IntReasonRegRoundTrip | src/hw/gdrom/gdrom_reg.c:722-742 | COD and IO can be read back from bits 0 and 1 |
| GdromReg.FeaturesLowBits | src/hw/gdrom/gdrom_reg.c:648-659 | the features decode depends only on the low seven bits, and set-features (3) implies DMA enable |
| GdromReg.DecodeFeatures | src/hw/gdrom/gdrom_reg.c:648-659 | DMA is enabled exactly when bit 0 is set; set-features is enabled exactly when the low seven bits are 3 |
| GdromReg.DecodeSectorCount | src/hw/gdrom/gdrom_reg.c:685-714 | decoding fails with ERROR_UNIMPLEMENTED exactly when no mode pattern matches; otherwise the mode's pattern matches and the mode value is the low four bits |
| GdromReg.ModesExclusive | src/hw/gdrom/gdrom_reg.c:667-704 | no value matches two mode patterns, so the priority order never decides the mode |
| GdromReg.DevCtrlBits | src/hw/gdrom/gdrom_reg.c:756-761 | the device-control decode depends only on bits 1 (nIEN) and 2 (SRST) |
| GdromReg.DecodeDevCtrl | src/hw/gdrom/gdrom_reg.c:756-761 | nIEN is set exactly when bit 1 is, SRST exactly when bit 2 is |
| GdromReg.DevCtrlRoundTrip | src/hw/gdrom/gdrom_reg.c:756-761 | every device-control setting can be written: its encoding decodes back to it |
| GdromReg.SpliceLoReadBack | src/hw/gdrom/gdrom_reg.c:257-261 | the low port then reads back the written byte |
| GdromReg.SpliceLoKeepsHi | src/hw/gdrom/gdrom_reg.c:257-261 | a low-port write leaves the high byte alone |
| GdromReg.SpliceLoKeepsRest | src/hw/gdrom/gdrom_reg.c:257-261 | a low-port write keeps every bit above bit 7 |
| GdromReg.SpliceHiReadBack | src/hw/gdrom/gdrom_reg.c:262-267 | the high port then reads back the written byte |
| GdromReg.SpliceHiKeepsLo | src/hw/gdrom/gdrom_reg.c:262-267 | a high-port write leaves the low byte alone |
| GdromReg.SpliceHiKeepsRest | src/hw/gdrom/gdrom_reg.c:262-267 | a high-port write keeps every bit outside bits 8-15 |
| GdromReg.LoThenHi | src/hw/gdrom/gdrom_reg.c:257-267 | writing low then high gives the count with both bytes replaced |
| GdromReg.HiThenLo | src/hw/gdrom/gdrom_reg.c:257-267 | writing high then low gives the same count |
| GdromReg.SplicesCommute | src/hw/gdrom/gdrom_reg.c:257-267 | the two port writes commute |
| GdromReg.SplicesSetLow16 | src/hw/gdrom/gdrom_reg.c:257-267 | after both port writes the low 16 bits of the count are hi:lo |
| GdromReg.ByteCountLo | src/hw/gdrom/gdrom_reg.c:188-189 | the low port shows the count's low byte and nothing else |
| GdromReg.ByteCountHi | src/hw/gdrom/gdrom_reg.c:196-197 | the high port shows one byte, and for a count that fits in 16 bits the two ports together show the whole count |
| GdromReg.SpliceLo | src/hw/gdrom/gdrom_reg.c:257-261 | a low-port write sets bits 0-7 of the count to the written byte and keeps every other bit |
| GdromReg.SpliceHi | src/hw/gdrom/gdrom_reg.c:262-267 | a high-port write sets bits 8-15 of the count to the written byte and keeps every other bit |
| GdromReg.RegIdx | src/hw/gdrom/gdrom_reg.c:169 | an address below the register base wraps to no valid index; an address in the 32-byte block selects the register whose word contains it |
| GdromReg.Read8 | src/hw/gdrom/gdrom_reg.c:168-239 | only index 0 goes to the data port; only the status register acknowledges the interrupt; the read faults, with ERROR_UNIMPLEMENTED, exactly at an unknown address other than alternate status or at a byte-count port while the count exceeds 16 bits; alternate status reads the status without acknowledging |
| GdromReg.Read32 | src/hw/gdrom/gdrom_reg.c:317-372 | only index 0 goes to the data port; only the status register acknowledges the interrupt; the read faults with ERROR_UNIMPLEMENTED exactly when the index is past the command register |
| GdromReg.WriteIndexed | src/hw/gdrom/gdrom_reg.c:245-276 | index 0 goes to the data port and index 7 to the command input with no register changed; index 1 sets only the features, 2 only the sector count, 4 and 5 only their byte of the count, 6 only drive-select; the write fails exactly on a sector count matching no mode, changing nothing, with ERROR_UNIMPLEMENTED |
| GdromReg.Write8 | src/hw/gdrom/gdrom_reg.c:241-287 | an indexed byte write is the shared dispatch on the widened byte; the alternate-status address sets only device control; the write fails, changing nothing, with ERROR_UNIMPLEMENTED, exactly on a bad sector count or an address that is neither indexed nor alternate status |
| GdromReg.Write32 | src/hw/gdrom/gdrom_reg.c:374-414 | an indexed word write is the shared dispatch; the write fails, changing nothing, with ERROR_UNIMPLEMENTED, exactly on a bad sector count, the sector-number index or an address past the block; device control never changes |
| GdromReg.GdaproWrite | src/hw/gdrom/gdrom_reg.c:424-438 | a GDAPRO write is stored, with no other register changed, exactly when the top half carries the security code 0x8843; otherwise nothing changes |
| GdromReg.GdstarWrite | src/hw/gdrom/gdrom_reg.c:464-471 | GDSTAR holds the value with its top three bits cleared, and no other register changes |
| GdromReg.IdxAddrDispatch | src/hw/gdrom/gdrom_reg.c:124-138 | register idx's address dispatches to idx, and the alternate-status address to no index |
| GdromReg.ByteCountLoReadBack | src/hw/gdrom/gdrom_reg.c:188-261 | an 8-bit write to the low byte-count port reads back through that port while the count fits in 16 bits |
| GdromReg.ByteCountHiReadBack | src/hw/gdrom/gdrom_reg.c:196-267 | an 8-bit write to the high byte-count port reads back through that port while the count fits in 16 bits |
| GdromReg.WideCountReads | src/hw/gdrom/gdrom_reg.c:188-195 | an 8-bit byte-count read of a count above 0xFFFF is ERROR_UNIMPLEMENTED, while the 32-bit read returns the low byte regardless |
| GdromReg.GdaproKeepsCode | src/hw/gdrom/gdrom_reg.c:428-432 | once GDAPRO carries the security code 0x8843, no write removes it |
| GdromReg.StatusReadBit1Clear | src/hw/gdrom/gdrom_reg.c:207-234 | a status read never shows bit 1, and the alternate-status read does not acknowledge the interrupt |
| GdromReg.BadSectorCountKeepsState | src/hw/gdrom/gdrom_reg.c:386-389 | a sector-count write matching no transfer mode leaves every register as it was |
| GdromReg.Read32Decodes | src/hw/gdrom/gdrom_reg.c:317-372 | a 32-bit read of the error, interrupt-reason and status registers decodes to the drive's flags, and the sense key's low four bits |
| GdromReg.Read32Values | src/hw/gdrom/gdrom_reg.c:334-347 | a 32-bit read shows drive-select as stored, the two byte-count ports together show the count's low 16 bits, and the sector number packs a drive state and disc type of four bits each |
| GdromReg.NarrowReadIsLowByte | src/hw/gdrom/gdrom_reg.c:168-239 | every 8-bit read of an indexed register that yields a value yields the low byte of the 32-bit read, acknowledging the interrupt alike |
| GdromReg.DriveSelReadBack | src/hw/gdrom/gdrom_reg.c:205-403 | drive-select reads back what was written at either width, and a byte read after a word write sees its low byte |
| GdromReg.ByteCountReadBack32 | src/hw/gdrom/gdrom_reg.c:337-400 | a 32-bit write to a byte-count port reads back at 32 bits as the written low byte and leaves what the other port reads |
| GdromReg.FeatErrorSplit | src/hw/gdrom/gdrom_reg.c:176-252 | a write to index 1 sets the features register and never changes what index 1 reads, the error register |
| GdromReg.AltStatusSplit | src/hw/gdrom/gdrom_reg.c:228-282 | a device-control write at the alternate-status address never changes what that address reads |
| GdromReg.GdromCtxt.RegWrite8 | src/hw/gdrom/gdrom_reg.c:241-287 | the in-place 8-bit write leaves the context and returns the outcome that Write8 gives for the old context |
| GdromReg.GdromCtxt.RegWrite32 | src/hw/gdrom/gdrom_reg.c:374-414 | the in-place 32-bit write leaves the context and returns the outcome that Write32 gives for the old context |
| GdromReg.GdromCtxt.GdaproMmioWrite | src/hw/gdrom/gdrom_reg.c:424-438 | the in-place GDAPRO write leaves the context GdaproWrite describes |
| GdromReg.GdromCtxt.GdstarMmioWrite | src/hw/gdrom/gdrom_reg.c:464-471 | the in-place GDSTAR write leaves the context GdstarWrite describes |
| Arm7.PcIdx | src/libwashdc/hw/arm7/arm7.h:222-233 | R15's slot is in the register file and among the user registers |
| Arm7.CpsrMode | src/libwashdc/hw/arm7/arm7.h:72-83 | the mode's encoding equals the CPSR's low five bits; the lookup fails exactly when no mode has that encoding, with ERROR_UNIMPLEMENTED |
| Arm7.GenReg | src/libwashdc/hw/arm7/arm7.h:164-205 | the mapping fails exactly when the CPSR's mode field is not a defined mode, with ERROR_UNIMPLEMENTED |
| Arm7.UnbankedIsUser | src/libwashdc/hw/arm7/arm7.h:164-205 | a register without a private copy in the mode (all of them in USER) maps to R0 + r |
| Arm7.BankedInOwnBank | src/libwashdc/hw/arm7/arm7.h:170-199 | FIQ's r8-r14 map to its bank at offset r - 8 and the other modes' r13-r14 to theirs at offset r - 13, inside that mode's own bank |
| Arm7.BankedOutsideUser | src/libwashdc/hw/arm7/arm7.h:170-199 | a banked register's slot is in the file but is neither a user register nor the CPSR |
| Arm7.GenRegInFile | src/libwashdc/hw/arm7/arm7.h:164-205 | every mapped slot is in the register file and is not the CPSR |
| Arm7.GenRegInjective | src/libwashdc/hw/arm7/arm7.h:164-205 | within one mode, distinct logical registers map to distinct slots |
| Arm7.StacksSeparate | src/libwashdc/hw/arm7/arm7.h:176-199 | any two different modes keep r13 in different slots |
| Arm7.DoFetchInst | src/libwashdc/hw/arm7/arm7.h:236-240 | the first 2 MiB of the window read the wave memory directly, and any address above 0x7fffff reads all ones |
| Arm7.FetchMirrors | src/libwashdc/hw/arm7/arm7.h:236-240 | the fetch window below 0x800000 mirrors the wave memory every 2 MiB |
| Arm7.FetchOutsideWindow | src/libwashdc/hw/arm7/arm7.h:236-240 | above 0x7fffff a fetch returns 0xFFFFFFFF whatever the memory holds |
| Arm7.ResetPipeline | src/libwashdc/hw/arm7/arm7.h:221-234 | a reset refills both stages from R15 and R15 + 4 so the buffer matches memory, moves R15 to pc + 8 and charges two cycles |
| Arm7.FetchInst | src/libwashdc/hw/arm7/arm7.h:242-259 | a fetch delivers the decode stage's word with the pending cycles and clears them; the fetch stage's word and address move to the decode stage, the fetch stage receives the word at R15 with R15 as its address, and R15 stays in place; a coherent buffer stays coherent |
| Arm7.ResetEstablishes | src/libwashdc/hw/arm7/arm7.h:221-234 | a reset charges two extra cycles and fills the buffer from pc and pc + 4; the buffer is then coherent with memory and in step with R15 = pc + 8 |
| Arm7.FetchDeliversPcMinus8 | src/libwashdc/hw/arm7/arm7.h:122-139 | from a coherent, in-step buffer a fetch delivers the word at R15 - 8 |
| Arm7.FetchKeepsStep | src/libwashdc/hw/arm7/arm7.h:242-259 | a fetch clears the pending cycles and keeps the buffer coherent, and once R15 advances one word it is in step again |
| Arm7.RestartDelivers | src/libwashdc/hw/arm7/arm7.h:212-259 | after a restart at pc, the next two fetches deliver the words at pc and pc + 4, charged 2 and then 0 extra cycles |
| Arm7.BufferedWordMoves | src/libwashdc/hw/arm7/arm7.h:242-259 | whatever the wave memory holds at each fetch, the next fetch delivers the word the fetch stage held, and the word fetched at R15 is delivered two fetches later: buffered words are moved, never re-read |
| Arm7.Arm7Cpu.Reset | src/libwashdc/hw/arm7/arm7.h:221-234 | the in-place reset leaves the buffer, R15 and the cycle count that ResetPipeline describes, and no other register changes |
| Arm7.Arm7Cpu.Fetch | src/libwashdc/hw/arm7/arm7.h:242-259 | the in-place fetch returns the word and cycles FetchInst describes and leaves its buffer state; the register file does not change |

## Left out

- I/O back-ends: the GD-ROM data port, command input, DMA start, drive state and disc type queries, and the HOLLY interrupt line are outcomes or parameters, not modelled behaviour.
- The GD-ROM 16-bit accessors, the float and double accessors, the other G1 DMA registers (G1GDRC, GDLEN, GDDIR, GDEN, GDST, GDLEND) and their registration in `gdrom_reg_init` are not modelled: they are thin stores or fatal errors outside the codec.
- The AVL tree is a `map`. Its balancing and teardown are not modelled; a torn-down generation is recorded in a ghost log, because memory release has no meaning in the model.
- Allocation failure (`ERROR_FAILED_ALLOC` in `code_cache_invalidate_all`) and the x86_64 native backend are left out.
- `code_block_intp_cleanup` and `cache_entry_dtor` free memory and are left out for the same reason.
- CodeCache.HashIdx: models `addr & CODE_CACHE_HASH_TBL_MASK` as the remainder by the table length. The two agree only for a power-of-two length, which the unseen header is assumed to provide.
- The ARM7 register indices come from a header that is not part of this model. They are the `RegLayout` parameter, constrained only to disjoint banks that fit the file with the CPSR outside them; R15 is taken to be R0 + 15.
- Arm7.Arm7Cpu: only the registers, the buffer and the pending cycles are modelled, not the rest of `struct arm7` (memory map, clock, exception and FIQ state).
- Static shift amounts of 32 or more are excluded by `InstFits`, because the C code's result is undefined; `InstFits` puts no bound on the slot DISCARD_SLOT names, which the C code never touches. SHAD's dynamic amount yields `UndefinedBehaviour` instead, which includes the negation of INT32_MIN.
- SET_GE_SIGNED writes through the SET_GE_UNSIGNED member of the immediate union. This is modelled as its own destination, on the assumption that the two members share a layout.
- The immediate of SET_GT_SIGNED_CONST and SET_GE_SIGNED_CONST is compared as a signed 32-bit value.
- CodeBlockIntp.Step: an instruction naming a slot past the block's slot count is given an ERROR_INTEGRITY fault. The C code would read out of bounds. `Exec` requires well-formed blocks, so this case never arises there.
- An opcode value outside the handled ones has no case in the C switch. It cannot be expressed as a `JitInst`, so the model does not capture what the C code does with it.
- The interpreter's float and double slots are only tagged; their values are never read or written.
- CodeBlockIntp.IntpBlock.Exec: the order in which C evaluates the two `slot_u32` calls of a compound assignment is not modelled. Either failing check raises the same ERROR_INTEGRITY, so only which check fires first is unobserved.
- CodeBlockIntpLemmas.FellOffRunsAll: states only that every instruction ran. That no JUMP was among them follows from JumpedAtJump and is stated by NoJumpNoAddress.
- Wrap-around of ADD, SUB, ADD_CONST32 and MUL_U32 is carried by the `bv32` type and shown on examples. It is not restated as an equation over unbounded integers.
- CodeBlockIntp.SignedGt and CodeBlockIntp.SignedGe are shown to read two's complement only on examples (SignedCompareExamples). They are not related, for all inputs, to a comparison of the operands' integer values.
