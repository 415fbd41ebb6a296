/**
 * The GD-ROM drive's ATA-style register file as the guest sees it: encoders
 * that pack the drive's error, status and interrupt-reason state into
 * register bits, decoders that unpack the features, sector-count and
 * device-control registers the guest writes, the 16-bit byte-count register
 * reached through two byte ports, the index dispatch of 8- and 32-bit
 * accesses, and the GDAPRO and GDSTAR DMA registers.
 */
module GdromReg {
  import opened Errors

  // ---------------------------------------------------------------------------
  // Register contents
  // ---------------------------------------------------------------------------

  /** The drive's error state (struct gdrom_error). */
  datatype GdError = GdError(senseKey: bv32, mcr: bool, abrt: bool, eomf: bool, ili: bool)

  /** The drive's status flags (struct gdrom_status). */
  datatype GdStatus = GdStatus(bsy: bool, drdy: bool, df: bool, dsc: bool, drq: bool, corr: bool, check: bool)

  /** The interrupt-reason flags (struct gdrom_int_reason). */
  datatype IntReason = IntReason(cod: bool, io: bool)

  /** The decoded features register (struct gdrom_features). */
  datatype Features = Features(dmaEnable: bool, setFeatEnable: bool)

  /** The transfer modes the sector-count register can select. */
  datatype TransMode = PioDefault | PioFlowCtrl | SingleWordDma | MultiWordDma | PseudoDma

  /** The decoded sector-count register (struct gdrom_sector_count). */
  datatype SectorCount = SectorCount(transMode: TransMode, modeVal: bv32)

  /** The decoded device-control register (struct gdrom_dev_ctrl). */
  datatype DevCtrl = DevCtrl(nien: bool, srst: bool)

  /** The register-level part of the drive context (struct gdrom_ctxt). */
  datatype RegFile = RegFile(
    errorReg: GdError,
    statReg: GdStatus,
    intReason: IntReason,
    featReg: Features,
    sectCnt: SectorCount,
    devCtrl: DevCtrl,
    dataByteCount: bv32,
    driveSel: bv32,
    gdapro: bv32,
    dmaStartAddr: bv32)

  // ---------------------------------------------------------------------------
  // Encoders and their decoding partners
  // ---------------------------------------------------------------------------

  function Bit(b: bool, mask: bv32): bv32 {
    if b then mask else 0
  }

  /** gdrom_get_error_reg: sense key in bits 4-7, MCR bit 3, ABRT bit 2, EOMF bit 1, ILI bit 0. */
  function ErrorReg(e: GdError): (r: bv32)
    ensures r & !0xff == 0
  {
    ((e.senseKey << 4) & 0xf0) | Bit(e.ili, 0x01) | Bit(e.eomf, 0x02) | Bit(e.abrt, 0x04) | Bit(e.mcr, 0x08)
  }

  /** What a guest reading the error register learns from its bits. */
  function ParseErrorReg(v: bv32): GdError {
    GdError((v >> 4) & 0xf, v & 0x08 != 0, v & 0x04 != 0, v & 0x02 != 0, v & 0x01 != 0)
  }

  /** Every flag of the error state can be read back from its bit, and so can the sense key's low four bits. */
  lemma ErrorRegRoundTrip(e: GdError)
    ensures ParseErrorReg(ErrorReg(e)) == e.(senseKey := e.senseKey & 0xf)
  {
    var r := ErrorReg(e);
    assert (r >> 4) & 0xf == e.senseKey & 0xf;
  }

  /** gdrom_get_status_reg: BSY bit 7, DRDY 6, DF 5, DSC 4, DRQ 3, CORR 2, CHECK 0; bit 1 and bits 8 and up stay clear. */
  function StatusReg(s: GdStatus): (r: bv32)
    ensures r & !0xfd == 0
  {
    var hi := Bit(s.bsy, 0x80) | Bit(s.drdy, 0x40) | Bit(s.df, 0x20) | Bit(s.dsc, 0x10);
    var lo := Bit(s.drq, 0x08) | Bit(s.corr, 0x04) | Bit(s.check, 0x01);
    assert hi & !0xf0 == 0;
    assert lo & !0x0d == 0;
    hi | lo
  }

  /** What a guest reading the status register learns from its bits. */
  function ParseStatusReg(v: bv32): GdStatus {
    GdStatus(v & 0x80 != 0, v & 0x40 != 0, v & 0x20 != 0, v & 0x10 != 0, v & 0x08 != 0, v & 0x04 != 0, v & 0x01 != 0)
  }

  /** Every status flag can be read back from its bit: no two flags share one. */
  lemma StatusRegRoundTrip(s: GdStatus)
    ensures ParseStatusReg(StatusReg(s)) == s
  {
  }

  /** gdrom_get_int_reason_reg: COD bit 0, IO bit 1, nothing else. */
  function IntReasonReg(i: IntReason): (r: bv32)
    ensures r & !0x3 == 0
  {
    Bit(i.cod, 0x1) | Bit(i.io, 0x2)
  }

  /** What a guest reading the interrupt-reason register learns from its bits. */
  function ParseIntReasonReg(v: bv32): IntReason {
    IntReason(v & 0x1 != 0, v & 0x2 != 0)
  }

  /** Both interrupt-reason flags can be read back from their bits. */
  lemma IntReasonRegRoundTrip(i: IntReason)
    ensures ParseIntReasonReg(IntReasonReg(i)) == i
  {
  }

  // ---------------------------------------------------------------------------
  // Decoders of the registers the guest writes
  // ---------------------------------------------------------------------------

  /** gdrom_set_features_reg: DMA on bit 0; set-features when the low seven bits are 3. */
  function DecodeFeatures(v: bv32): (r: Features)
    ensures r.dmaEnable <==> v & 0x1 == 0x1
    ensures r.setFeatEnable <==> v & 0x7f == 0x3
  {
    Features(v & 0x1 != 0, v & 0x7f == 3)
  }

  /** The features decode looks at the low seven bits only, and set-features (3) always comes with DMA. */
  lemma FeaturesLowBits(v: bv32)
    ensures DecodeFeatures(v) == DecodeFeatures(v & 0x7f)
    ensures DecodeFeatures(v).setFeatEnable ==> DecodeFeatures(v).dmaEnable
  {
  }

  /** The bit pattern that selects each transfer mode: a mask and the value the masked register must have. */
  function ModeMatches(m: TransMode, v: bv32): bool {
    match m
    case PioDefault => v & 0xfe == 0x00
    case PioFlowCtrl => v & 0xf8 == 0x08
    case SingleWordDma => v & 0xf8 == 0x10
    case MultiWordDma => v & 0xf8 == 0x20
    case PseudoDma => v & 0xf8 == 0x18
  }

  /**
   * gdrom_set_sect_cnt_reg: the first mode whose pattern matches, in the
   * order PIO default, PIO flow control, single-word, multi-word and pseudo
   * DMA, together with the low four bits as the mode value.  A register
   * matching no pattern raises ERROR_UNIMPLEMENTED and sets nothing.
   */
  function DecodeSectorCount(v: bv32): (r: Result<SectorCount>)
    ensures r.Err? <==> forall m: TransMode :: !ModeMatches(m, v)
    ensures r.Ok? ==> ModeMatches(r.value.transMode, v) && r.value.modeVal == v & 0xf
    ensures r.Err? ==> r.code == ErrorUnimplemented
  {
    var modeVal := v & 0xf;
    if v & 0xfe == 0x00 then
      assert ModeMatches(PioDefault, v); Ok(SectorCount(PioDefault, modeVal))
    else if v & 0xf8 == 0x08 then
      assert ModeMatches(PioFlowCtrl, v); Ok(SectorCount(PioFlowCtrl, modeVal))
    else if v & 0xf8 == 0x10 then
      assert ModeMatches(SingleWordDma, v); Ok(SectorCount(SingleWordDma, modeVal))
    else if v & 0xf8 == 0x20 then
      assert ModeMatches(MultiWordDma, v); Ok(SectorCount(MultiWordDma, modeVal))
    else if v & 0xf8 == 0x18 then
      assert ModeMatches(PseudoDma, v); Ok(SectorCount(PseudoDma, modeVal))
    else Err(ErrorUnimplemented)
  }

  /** No register value matches two modes, so the order the patterns are tried in never decides the mode. */
  lemma ModesExclusive(m1: TransMode, m2: TransMode, v: bv32)
    requires ModeMatches(m1, v) && ModeMatches(m2, v)
    ensures m1 == m2
  {
  }

  /** gdrom_set_dev_ctrl_reg: nIEN is bit 1, SRST is bit 2. */
  function DecodeDevCtrl(v: bv32): (r: DevCtrl)
    ensures r.nien <==> v & 0x2 == 0x2
    ensures r.srst <==> v & 0x4 == 0x4
  {
    DevCtrl(v & 0x2 != 0, v & 0x4 != 0)
  }

  /** The device-control bits a guest writes to obtain a given setting. */
  function DevCtrlReg(d: DevCtrl): bv32 {
    Bit(d.nien, 0x2) | Bit(d.srst, 0x4)
  }

  /** Every device-control setting can be written: its bits decode back to it. */
  lemma DevCtrlRoundTrip(d: DevCtrl)
    ensures DecodeDevCtrl(DevCtrlReg(d)) == d
  {
  }

  /** Only bits 1 and 2 of a device-control write matter. */
  lemma DevCtrlBits(v: bv32)
    ensures DecodeDevCtrl(v) == DecodeDevCtrl(v & 0x6)
  {
  }

  // ---------------------------------------------------------------------------
  // The byte-count register's two byte ports
  // ---------------------------------------------------------------------------

  /** The byte-count low port's view of the count. */
  function ByteCountLo(d: bv32): (r: bv32)
    ensures r <= 0xff && (r ^ d) & 0xff == 0
  {
    d & 0xff
  }

  /** The byte-count high port's view of the count. */
  function ByteCountHi(d: bv32): (r: bv32)
    ensures r <= 0xff
    ensures d <= 0xffff ==> (r << 8) | ByteCountLo(d) == d
  {
    (d & 0xff00) >> 8
  }

  /** A write to the low port replaces bits 0-7 of the count with the written byte. */
  function SpliceLo(d: bv32, b: bv32): (r: bv32)
    ensures (r ^ b) & 0xff == 0
    ensures (r ^ d) & !0xff == 0
  {
    (d & !0xff) | (b & 0xff)
  }

  /** A write to the high port replaces bits 8-15 of the count with the written byte. */
  function SpliceHi(d: bv32, b: bv32): (r: bv32)
    ensures (r ^ (b << 8)) & 0xff00 == 0
    ensures (r ^ d) & !0xff00 == 0
  {
    (d & !0xff00) | ((b & 0xff) << 8)
  }

  /** Reading the low port back gives the byte written. */
  lemma SpliceLoReadBack(d: bv32, b: bv32)
    ensures ByteCountLo(SpliceLo(d, b)) == b & 0xff
  {
  }

  /** A write to the low port leaves what the high port reads. */
  lemma SpliceLoKeepsHi(d: bv32, b: bv32)
    ensures ByteCountHi(SpliceLo(d, b)) == ByteCountHi(d)
  {
  }

  /** A write to the low port leaves every bit above the low byte, bits 16-31 included. */
  lemma SpliceLoKeepsRest(d: bv32, b: bv32)
    ensures SpliceLo(d, b) & !0xff == d & !0xff
  {
  }

  /** Reading the high port back gives the byte written. */
  lemma SpliceHiReadBack(d: bv32, b: bv32)
    ensures ByteCountHi(SpliceHi(d, b)) == b & 0xff
  {
  }

  /** A write to the high port leaves what the low port reads. */
  lemma SpliceHiKeepsLo(d: bv32, b: bv32)
    ensures ByteCountLo(SpliceHi(d, b)) == ByteCountLo(d)
  {
  }

  /** A write to the high port leaves every bit outside bits 8-15. */
  lemma SpliceHiKeepsRest(d: bv32, b: bv32)
    ensures SpliceHi(d, b) & !0xff00 == d & !0xff00
  {
  }

  /** The count after writes to both ports: the high bits kept and the two bytes in place. */
  function BothPorts(d: bv32, lo: bv32, hi: bv32): bv32 {
    (d & !0xffff) | ((hi & 0xff) << 8) | (lo & 0xff)
  }

  lemma LoThenHi(d: bv32, lo: bv32, hi: bv32)
    ensures SpliceHi(SpliceLo(d, lo), hi) == BothPorts(d, lo, hi)
  {
  }

  lemma HiThenLo(d: bv32, lo: bv32, hi: bv32)
    ensures SpliceLo(SpliceHi(d, hi), lo) == BothPorts(d, lo, hi)
  {
  }

  /** Writes to the two ports commute. */
  lemma SplicesCommute(d: bv32, lo: bv32, hi: bv32)
    ensures SpliceHi(SpliceLo(d, lo), hi) == SpliceLo(SpliceHi(d, hi), lo)
  {
    LoThenHi(d, lo, hi);
    HiThenLo(d, lo, hi);
  }

  /** Writing both ports sets the low 16 bits of the count to the two bytes. */
  lemma SplicesSetLow16(d: bv32, lo: bv32, hi: bv32)
    ensures SpliceHi(SpliceLo(d, lo), hi) & 0xffff == ((hi & 0xff) << 8) | (lo & 0xff)
  {
  }

  // ---------------------------------------------------------------------------
  // Register dispatch
  // ---------------------------------------------------------------------------

  const GdromRegBase: bv32 := 0x5f7080
  /** The alternate-status / device-control register, outside the indexed block. */
  const AltStatusAddr: bv32 := 0x5f7018

  const IdxData: bv32 := 0
  const IdxFeatError: bv32 := 1
  const IdxIntReasonSecCnt: bv32 := 2
  const IdxSecNum: bv32 := 3
  const IdxByteCntLo: bv32 := 4
  const IdxByteCntHi: bv32 := 5
  const IdxDriveSel: bv32 := 6
  const IdxStatusCmd: bv32 := 7

  /** The register index of an address: its word offset from the base, in unsigned 32-bit arithmetic. */
  function RegIdx(addr: bv32): (r: bv32)
    ensures addr < GdromRegBase ==> r > IdxStatusCmd
    ensures GdromRegBase <= addr < GdromRegBase + 0x20 ==>
              r <= IdxStatusCmd && GdromRegBase + r * 4 <= addr < GdromRegBase + r * 4 + 4
  {
    (addr - GdromRegBase) / 4
  }

  /** The low byte of a register, as an 8-bit access returns it. */
  function Low8(v: bv32): bv8 {
    (v & 0xff) as bv8
  }

  /**
   * What a register read yields: a value (and whether the read acknowledges
   * the drive's external interrupt, as a status read does), a read of the
   * data port served by the drive back-end, or a fatal error.
   */
  datatype ReadOutcome<T> = Value(val: T, clearsIrq: bool) | DataPort | ReadFault(code: ErrorCode)

  /**
   * gdrom_reg_read_8.  The sector-number register combines the drive state
   * (bits 0-3) and disc type (bits 4-7) the back-end reports; a byte-count
   * read raises ERROR_UNIMPLEMENTED while the count exceeds 16 bits; the
   * alternate-status address reads the status without acknowledging the
   * interrupt; any other address raises ERROR_UNIMPLEMENTED.
   */
  function Read8(g: RegFile, addr: bv32, driveState: bv32, discType: bv32): (r: ReadOutcome<bv8>)
    ensures r.DataPort? <==> RegIdx(addr) == IdxData
    ensures r.ReadFault? ==> r.code == ErrorUnimplemented
    ensures r.Value? && r.clearsIrq <==> RegIdx(addr) == IdxStatusCmd
    ensures r.ReadFault? <==>
              (RegIdx(addr) > IdxStatusCmd && addr != AltStatusAddr) ||
              ((RegIdx(addr) == IdxByteCntLo || RegIdx(addr) == IdxByteCntHi) && g.dataByteCount > 0xffff)
    ensures addr == AltStatusAddr ==> r == Value(Low8(StatusReg(g.statReg)), false)
  {
    var idx := RegIdx(addr);
    if idx == IdxData then DataPort
    else if idx == IdxFeatError then Value(Low8(ErrorReg(g.errorReg)), false)
    else if idx == IdxIntReasonSecCnt then Value(Low8(IntReasonReg(g.intReason)), false)
    else if idx == IdxSecNum then Value(Low8(driveState) | (Low8(discType) << 4), false)
    else if idx == IdxByteCntLo then
      if g.dataByteCount > 0xffff then ReadFault(ErrorUnimplemented)
      else Value(Low8(ByteCountLo(g.dataByteCount)), false)
    else if idx == IdxByteCntHi then
      if g.dataByteCount > 0xffff then ReadFault(ErrorUnimplemented)
      else Value(Low8(ByteCountHi(g.dataByteCount)), false)
    else if idx == IdxDriveSel then Value(Low8(g.driveSel), false)
    else if idx == IdxStatusCmd then Value(Low8(StatusReg(g.statReg)), true)
    else if addr == AltStatusAddr then Value(Low8(StatusReg(g.statReg)), false)
    else ReadFault(ErrorUnimplemented)
  }

  /**
   * gdrom_reg_read_32: the same registers at full width, except that the
   * byte-count ports never check the count and there is no alternate-status
   * case, so that address raises ERROR_UNIMPLEMENTED like any other unknown one.
   */
  function Read32(g: RegFile, addr: bv32, driveState: bv32, discType: bv32): (r: ReadOutcome<bv32>)
    ensures r.DataPort? <==> RegIdx(addr) == IdxData
    ensures r.ReadFault? <==> RegIdx(addr) > IdxStatusCmd
    ensures r.ReadFault? ==> r.code == ErrorUnimplemented
    ensures r.Value? && r.clearsIrq <==> RegIdx(addr) == IdxStatusCmd
  {
    var idx := RegIdx(addr);
    if idx == IdxData then DataPort
    else if idx == IdxFeatError then Value(ErrorReg(g.errorReg), false)
    else if idx == IdxIntReasonSecCnt then Value(IntReasonReg(g.intReason), false)
    else if idx == IdxSecNum then Value(driveState | (discType << 4), false)
    else if idx == IdxByteCntLo then Value(ByteCountLo(g.dataByteCount), false)
    else if idx == IdxByteCntHi then Value(ByteCountHi(g.dataByteCount), false)
    else if idx == IdxDriveSel then Value(g.driveSel, false)
    else if idx == IdxStatusCmd then Value(StatusReg(g.statReg), true)
    else ReadFault(ErrorUnimplemented)
  }

  /**
   * What a register write does besides updating registers: nothing, a write
   * of `len` bytes to the data port, a command for the drive, or a fatal error.
   */
  datatype WriteOutcome = Stored | ToDataPort(val: bv32, len: nat) | ToCommand(cmd: bv32) | WriteFault(code: ErrorCode)

  datatype WriteResult = WriteResult(regs: RegFile, out: WriteOutcome)

  /** The dispatch shared by 8- and 32-bit writes to the registers reached by index (all but the sector number, which is read-only). */
  function WriteIndexed(g: RegFile, idx: bv32, val: bv32, len: nat): (r: WriteResult)
    requires idx <= IdxStatusCmd && idx != IdxSecNum
    ensures r.out.WriteFault? <==> idx == IdxIntReasonSecCnt && DecodeSectorCount(val).Err?
    ensures r.out.WriteFault? ==> r.regs == g && r.out.code == ErrorUnimplemented
    ensures idx == IdxData ==> r.regs == g && r.out == ToDataPort(val, len)
    ensures idx == IdxStatusCmd ==> r.regs == g && r.out == ToCommand(val)
    ensures idx == IdxFeatError ==> r.out == Stored && r.regs.featReg == DecodeFeatures(val) && r.regs.(featReg := g.featReg) == g
    ensures idx == IdxIntReasonSecCnt && DecodeSectorCount(val).Ok? ==>
              r.out == Stored && r.regs.sectCnt == DecodeSectorCount(val).value && r.regs.(sectCnt := g.sectCnt) == g
    ensures idx == IdxByteCntLo ==>
              r.out == Stored && r.regs.dataByteCount == SpliceLo(g.dataByteCount, val) && r.regs.(dataByteCount := g.dataByteCount) == g
    ensures idx == IdxByteCntHi ==>
              r.out == Stored && r.regs.dataByteCount == SpliceHi(g.dataByteCount, val) && r.regs.(dataByteCount := g.dataByteCount) == g
    ensures idx == IdxDriveSel ==> r.out == Stored && r.regs.driveSel == val && r.regs.(driveSel := g.driveSel) == g
  {
    if idx == IdxData then WriteResult(g, ToDataPort(val, len))
    else if idx == IdxFeatError then WriteResult(g.(featReg := DecodeFeatures(val)), Stored)
    else if idx == IdxIntReasonSecCnt then
      match DecodeSectorCount(val)
      case Ok(sc) => WriteResult(g.(sectCnt := sc), Stored)
      case Err(c) => WriteResult(g, WriteFault(c))
    else if idx == IdxByteCntLo then WriteResult(g.(dataByteCount := SpliceLo(g.dataByteCount, val)), Stored)
    else if idx == IdxByteCntHi then WriteResult(g.(dataByteCount := SpliceHi(g.dataByteCount, val)), Stored)
    else if idx == IdxDriveSel then WriteResult(g.(driveSel := val), Stored)
    else WriteResult(g, ToCommand(val))
  }

  /** gdrom_reg_write_8: the byte is widened to 32 bits; the alternate-status address takes device-control writes. */
  function Write8(g: RegFile, addr: bv32, val: bv8): (r: WriteResult)
    ensures RegIdx(addr) <= IdxStatusCmd && RegIdx(addr) != IdxSecNum ==> r == WriteIndexed(g, RegIdx(addr), val as bv32, 1)
    ensures addr == AltStatusAddr ==> r.out == Stored && r.regs == g.(devCtrl := DecodeDevCtrl(val as bv32))
    ensures r.out.WriteFault? <==>
              (RegIdx(addr) == IdxIntReasonSecCnt && DecodeSectorCount(val as bv32).Err?) ||
              ((RegIdx(addr) > IdxStatusCmd || RegIdx(addr) == IdxSecNum) && addr != AltStatusAddr)
    ensures r.out.WriteFault? ==> r.regs == g && r.out.code == ErrorUnimplemented
    ensures addr != AltStatusAddr ==> r.regs.devCtrl == g.devCtrl
  {
    var idx := RegIdx(addr);
    if idx <= IdxStatusCmd && idx != IdxSecNum then WriteIndexed(g, idx, val as bv32, 1)
    else if addr == AltStatusAddr then WriteResult(g.(devCtrl := DecodeDevCtrl(val as bv32)), Stored)
    else WriteResult(g, WriteFault(ErrorUnimplemented))
  }

  /** gdrom_reg_write_32: as the 8-bit write, without a device-control case. */
  function Write32(g: RegFile, addr: bv32, val: bv32): (r: WriteResult)
    ensures RegIdx(addr) <= IdxStatusCmd && RegIdx(addr) != IdxSecNum ==> r == WriteIndexed(g, RegIdx(addr), val, 4)
    ensures r.out.WriteFault? <==>
              (RegIdx(addr) == IdxIntReasonSecCnt && DecodeSectorCount(val).Err?) ||
              RegIdx(addr) > IdxStatusCmd || RegIdx(addr) == IdxSecNum
    ensures r.out.WriteFault? ==> r.regs == g && r.out.code == ErrorUnimplemented
    ensures r.regs.devCtrl == g.devCtrl
  {
    var idx := RegIdx(addr);
    if idx <= IdxStatusCmd && idx != IdxSecNum then WriteIndexed(g, idx, val, 4)
    else WriteResult(g, WriteFault(ErrorUnimplemented))
  }

  /** gdrom_gdapro_mmio_write: taken only when the top half carries the security code 0x8843, ignored otherwise. */
  function GdaproWrite(g: RegFile, val: bv32): (r: RegFile)
    ensures val & 0xffff0000 == 0x88430000 ==> r == g.(gdapro := val)
    ensures val & 0xffff0000 != 0x88430000 ==> r == g
  {
    if val & 0xffff0000 != 0x88430000 then g else g.(gdapro := val)
  }

  /** gdrom_gdstar_mmio_write: the address with its top three bits cleared. */
  function GdstarWrite(g: RegFile, val: bv32): (r: RegFile)
    ensures r.dmaStartAddr & 0xe0000000 == 0
    ensures r.dmaStartAddr & 0x1fffffff == val & 0x1fffffff
    ensures r.(dmaStartAddr := g.dmaStartAddr) == g
  {
    g.(dmaStartAddr := val & !0xe0000000)
  }

  // ---------------------------------------------------------------------------
  // Properties across reads and writes
  // ---------------------------------------------------------------------------

  /** The address of register idx. */
  function IdxAddr(idx: bv32): bv32
    requires idx <= IdxStatusCmd
  {
    GdromRegBase + idx * 4
  }

  /** Each index's address dispatches to that index, and the alternate-status address to none. */
  lemma IdxAddrDispatch(idx: bv32)
    requires idx <= IdxStatusCmd
    ensures RegIdx(IdxAddr(idx)) == idx
    ensures RegIdx(AltStatusAddr) > IdxStatusCmd
  {
  }

  /** The low eight bits of a widened byte are that byte. */
  lemma Low8Widened(val: bv8)
    ensures Low8((val as bv32) & 0xff) == val
  {
  }

  /** A byte-port write keeps a count that fits in 16 bits within 16 bits. */
  lemma SplicesStayShort(d: bv32, b: bv32)
    requires d <= 0xffff
    ensures SpliceLo(d, b) <= 0xffff && SpliceHi(d, b) <= 0xffff
  {
  }

  /**
   * A byte written to the low byte-count port reads back through that port,
   * as long as the count has no bits above 15.
   */
  lemma ByteCountLoReadBack(g: RegFile, val: bv8, driveState: bv32, discType: bv32)
    requires g.dataByteCount <= 0xffff
    ensures var g' := Write8(g, IdxAddr(IdxByteCntLo), val).regs;
      Read8(g', IdxAddr(IdxByteCntLo), driveState, discType) == Value(val, false)
  {
    IdxAddrDispatch(IdxByteCntLo);
    var d := SpliceLo(g.dataByteCount, val as bv32);
    assert Write8(g, IdxAddr(IdxByteCntLo), val).regs == g.(dataByteCount := d);
    SplicesStayShort(g.dataByteCount, val as bv32);
    SpliceLoReadBack(g.dataByteCount, val as bv32);
    Low8Widened(val);
  }

  /** Likewise for the high port. */
  lemma ByteCountHiReadBack(g: RegFile, val: bv8, driveState: bv32, discType: bv32)
    requires g.dataByteCount <= 0xffff
    ensures var g' := Write8(g, IdxAddr(IdxByteCntHi), val).regs;
      Read8(g', IdxAddr(IdxByteCntHi), driveState, discType) == Value(val, false)
  {
    IdxAddrDispatch(IdxByteCntHi);
    var d := SpliceHi(g.dataByteCount, val as bv32);
    assert Write8(g, IdxAddr(IdxByteCntHi), val).regs == g.(dataByteCount := d);
    SplicesStayShort(g.dataByteCount, val as bv32);
    SpliceHiReadBack(g.dataByteCount, val as bv32);
    Low8Widened(val);
  }

  /** An 8-bit byte-count read of a count wider than 16 bits raises ERROR_UNIMPLEMENTED; the 32-bit read returns the byte anyway. */
  lemma WideCountReads(g: RegFile, driveState: bv32, discType: bv32)
    requires g.dataByteCount > 0xffff
    ensures Read8(g, IdxAddr(IdxByteCntLo), driveState, discType) == ReadFault(ErrorUnimplemented)
    ensures Read32(g, IdxAddr(IdxByteCntLo), driveState, discType) == Value(g.dataByteCount & 0xff, false)
  {
    IdxAddrDispatch(IdxByteCntLo);
  }

  /** Once GDAPRO holds a value with the security code, no write can remove it. */
  lemma GdaproKeepsCode(g: RegFile, val: bv32)
    requires g.gdapro & 0xffff0000 == 0x88430000
    ensures GdaproWrite(g, val).gdapro & 0xffff0000 == 0x88430000
  {
  }

  /** A status read, 8 or 32 bits wide, never shows bit 1, whatever the drive's state. */
  lemma StatusReadBit1Clear(g: RegFile, driveState: bv32, discType: bv32)
    ensures var r := Read32(g, IdxAddr(IdxStatusCmd), driveState, discType);
      r.Value? && r.val & 0x2 == 0
    ensures var r := Read8(g, AltStatusAddr, driveState, discType);
      r.Value? && r.val & 0x2 == 0 && !r.clearsIrq
  {
    IdxAddrDispatch(IdxStatusCmd);
  }

  /** A rejected sector-count write leaves every register as it was. */
  lemma BadSectorCountKeepsState(g: RegFile, val: bv32)
    requires DecodeSectorCount(val).Err?
    ensures Write32(g, IdxAddr(IdxIntReasonSecCnt), val) == WriteResult(g, WriteFault(ErrorUnimplemented))
  {
    IdxAddrDispatch(IdxIntReasonSecCnt);
  }

  /**
   * What the flag registers show through a 32-bit read: the error flags and
   * the low four bits of the sense key, and the interrupt-reason and status flags.
   */
  lemma Read32Decodes(g: RegFile, driveState: bv32, discType: bv32)
    ensures var r := Read32(g, IdxAddr(IdxFeatError), driveState, discType);
      r.Value? && ParseErrorReg(r.val) == g.errorReg.(senseKey := g.errorReg.senseKey & 0xf)
    ensures var r := Read32(g, IdxAddr(IdxIntReasonSecCnt), driveState, discType);
      r.Value? && ParseIntReasonReg(r.val) == g.intReason
    ensures var r := Read32(g, IdxAddr(IdxStatusCmd), driveState, discType);
      r.Value? && ParseStatusReg(r.val) == g.statReg
  {
    IdxAddrDispatch(IdxFeatError);
    IdxAddrDispatch(IdxIntReasonSecCnt);
    IdxAddrDispatch(IdxStatusCmd);
    ErrorRegRoundTrip(g.errorReg);
    IntReasonRegRoundTrip(g.intReason);
    StatusRegRoundTrip(g.statReg);
  }

  /**
   * What the value registers show through a 32-bit read: the drive-select
   * value, the two bytes of the byte count, and the drive state and disc type
   * packed in the sector number when both fit in four bits.
   */
  lemma Read32Values(g: RegFile, driveState: bv32, discType: bv32)
    ensures Read32(g, IdxAddr(IdxDriveSel), driveState, discType) == Value(g.driveSel, false)
    ensures var lo := Read32(g, IdxAddr(IdxByteCntLo), driveState, discType);
      var hi := Read32(g, IdxAddr(IdxByteCntHi), driveState, discType);
      lo.Value? && hi.Value? && (hi.val << 8) | lo.val == g.dataByteCount & 0xffff
    ensures driveState <= 0xf && discType <= 0xf ==>
      var r := Read32(g, IdxAddr(IdxSecNum), driveState, discType);
      r.Value? && r.val & 0xf == driveState && r.val >> 4 == discType
  {
    IdxAddrDispatch(IdxSecNum);
    IdxAddrDispatch(IdxByteCntLo);
    IdxAddrDispatch(IdxByteCntHi);
    IdxAddrDispatch(IdxDriveSel);
  }

  /**
   * Inside the indexed block an 8-bit read that yields a value yields the low
   * byte of the 32-bit read of the same register, and acknowledges the
   * interrupt exactly when the 32-bit read does.
   */
  lemma NarrowReadIsLowByte(g: RegFile, addr: bv32, driveState: bv32, discType: bv32)
    requires RegIdx(addr) <= IdxStatusCmd
    requires Read8(g, addr, driveState, discType).Value?
    ensures var w := Read32(g, addr, driveState, discType);
      w.Value? && Read8(g, addr, driveState, discType) == Value(Low8(w.val), w.clearsIrq)
  {
    var idx := RegIdx(addr);
    if idx == IdxSecNum {
      SecNumLowByte(driveState, discType);
    }
  }

  /** The low byte of the packed sector number packs the two values' low bytes. */
  lemma SecNumLowByte(driveState: bv32, discType: bv32)
    ensures Low8(driveState | (discType << 4)) == Low8(driveState) | (Low8(discType) << 4)
  {
    var lo := driveState & 0xff;
    var hi := (discType << 4) & 0xff;
    assert (driveState | (discType << 4)) & 0xff == lo | hi;
    assert hi == ((discType & 0xff) << 4) & 0xff;
  }

  /** The drive-select register reads back what was written, at either width; a byte read after a word write sees its low byte. */
  lemma DriveSelReadBack(g: RegFile, val: bv32, b: bv8, driveState: bv32, discType: bv32)
    ensures Read32(Write32(g, IdxAddr(IdxDriveSel), val).regs, IdxAddr(IdxDriveSel), driveState, discType) == Value(val, false)
    ensures Read8(Write8(g, IdxAddr(IdxDriveSel), b).regs, IdxAddr(IdxDriveSel), driveState, discType) == Value(b, false)
    ensures Read8(Write32(g, IdxAddr(IdxDriveSel), val).regs, IdxAddr(IdxDriveSel), driveState, discType) == Value(Low8(val), false)
  {
    IdxAddrDispatch(IdxDriveSel);
    Low8Widened(b);
  }

  /**
   * A 32-bit write to a byte-count port reads back, at 32 bits, as the
   * written value's low byte, and leaves what the other port reads.
   */
  lemma ByteCountReadBack32(g: RegFile, val: bv32, driveState: bv32, discType: bv32)
    ensures Read32(Write32(g, IdxAddr(IdxByteCntLo), val).regs, IdxAddr(IdxByteCntLo), driveState, discType) == Value(val & 0xff, false)
    ensures Read32(Write32(g, IdxAddr(IdxByteCntLo), val).regs, IdxAddr(IdxByteCntHi), driveState, discType) ==
            Read32(g, IdxAddr(IdxByteCntHi), driveState, discType)
    ensures Read32(Write32(g, IdxAddr(IdxByteCntHi), val).regs, IdxAddr(IdxByteCntHi), driveState, discType) == Value(val & 0xff, false)
    ensures Read32(Write32(g, IdxAddr(IdxByteCntHi), val).regs, IdxAddr(IdxByteCntLo), driveState, discType) ==
            Read32(g, IdxAddr(IdxByteCntLo), driveState, discType)
  {
    IdxAddrDispatch(IdxByteCntLo);
    IdxAddrDispatch(IdxByteCntHi);
    SpliceLoReadBack(g.dataByteCount, val);
    SpliceLoKeepsHi(g.dataByteCount, val);
    SpliceHiReadBack(g.dataByteCount, val);
    SpliceHiKeepsLo(g.dataByteCount, val);
  }

  /**
   * Index 1 is two registers: writes go to the features register and reads
   * come from the error register, so a write there never changes what it reads.
   */
  lemma FeatErrorSplit(g: RegFile, val: bv32, b: bv8, driveState: bv32, discType: bv32)
    ensures Read32(Write32(g, IdxAddr(IdxFeatError), val).regs, IdxAddr(IdxFeatError), driveState, discType) ==
            Read32(g, IdxAddr(IdxFeatError), driveState, discType)
    ensures Read8(Write8(g, IdxAddr(IdxFeatError), b).regs, IdxAddr(IdxFeatError), driveState, discType) ==
            Read8(g, IdxAddr(IdxFeatError), driveState, discType)
  {
    IdxAddrDispatch(IdxFeatError);
  }

  /** The alternate-status address is two registers as well: a device-control write there leaves the status it reads. */
  lemma AltStatusSplit(g: RegFile, b: bv8, driveState: bv32, discType: bv32)
    ensures Read8(Write8(g, AltStatusAddr, b).regs, AltStatusAddr, driveState, discType) ==
            Read8(g, AltStatusAddr, driveState, discType)
  {
  }

  // ---------------------------------------------------------------------------
  // The drive context
  // ---------------------------------------------------------------------------

  /** The GD-ROM context's register fields, updated in place by the MMIO write handlers. */
  class GdromCtxt {
    var errorReg: GdError
    var statReg: GdStatus
    var intReason: IntReason
    var featReg: Features
    var sectCnt: SectorCount
    var devCtrl: DevCtrl
    var dataByteCount: bv32
    var driveSel: bv32
    var gdapro: bv32
    var dmaStartAddr: bv32

    function Snapshot(): RegFile
      reads this
    {
      RegFile(errorReg, statReg, intReason, featReg, sectCnt, devCtrl, dataByteCount, driveSel, gdapro, dmaStartAddr)
    }

    constructor (g: RegFile)
      ensures Snapshot() == g
    {
      errorReg, statReg, intReason := g.errorReg, g.statReg, g.intReason;
      featReg, sectCnt, devCtrl := g.featReg, g.sectCnt, g.devCtrl;
      dataByteCount, driveSel := g.dataByteCount, g.driveSel;
      gdapro, dmaStartAddr := g.gdapro, g.dmaStartAddr;
    }

    /** gdrom_reg_write_8, updating the field the address selects. */
    method RegWrite8(addr: bv32, val: bv8) returns (out: WriteOutcome)
      modifies this
      ensures WriteResult(Snapshot(), out) == Write8(old(Snapshot()), addr, val)
    {
      var idx := RegIdx(addr);
      var v := val as bv32;
      out := Stored;
      if idx == IdxData {
        out := ToDataPort(v, 1);
      } else if idx == IdxFeatError {
        featReg := DecodeFeatures(v);
      } else if idx == IdxIntReasonSecCnt {
        var sc := DecodeSectorCount(v);
        if sc.Err? {
          return WriteFault(sc.code);
        }
        sectCnt := sc.value;
      } else if idx == IdxByteCntLo {
        dataByteCount := SpliceLo(dataByteCount, v);
      } else if idx == IdxByteCntHi {
        dataByteCount := SpliceHi(dataByteCount, v);
      } else if idx == IdxDriveSel {
        driveSel := v;
      } else if idx == IdxStatusCmd {
        out := ToCommand(v);
      } else if addr == AltStatusAddr {
        devCtrl := DecodeDevCtrl(v);
      } else {
        out := WriteFault(ErrorUnimplemented);
      }
    }

    /** gdrom_reg_write_32, updating the field the address selects. */
    method RegWrite32(addr: bv32, val: bv32) returns (out: WriteOutcome)
      modifies this
      ensures WriteResult(Snapshot(), out) == Write32(old(Snapshot()), addr, val)
    {
      var idx := RegIdx(addr);
      out := Stored;
      if idx == IdxData {
        out := ToDataPort(val, 4);
      } else if idx == IdxFeatError {
        featReg := DecodeFeatures(val);
      } else if idx == IdxIntReasonSecCnt {
        var sc := DecodeSectorCount(val);
        if sc.Err? {
          return WriteFault(sc.code);
        }
        sectCnt := sc.value;
      } else if idx == IdxByteCntLo {
        dataByteCount := SpliceLo(dataByteCount, val);
      } else if idx == IdxByteCntHi {
        dataByteCount := SpliceHi(dataByteCount, val);
      } else if idx == IdxDriveSel {
        driveSel := val;
      } else if idx == IdxStatusCmd {
        out := ToCommand(val);
      } else {
        out := WriteFault(ErrorUnimplemented);
      }
    }

    /** gdrom_gdapro_mmio_write. */
    method GdaproMmioWrite(val: bv32)
      modifies this
      ensures Snapshot() == GdaproWrite(old(Snapshot()), val)
    {
      if val & 0xffff0000 != 0x88430000 {
        return;
      }
      gdapro := val;
    }

    /** gdrom_gdstar_mmio_write: store, then clear the top three bits. */
    method GdstarMmioWrite(val: bv32)
      modifies this
      ensures Snapshot() == GdstarWrite(old(Snapshot()), val)
    {
      dmaStartAddr := val;
      dmaStartAddr := dmaStartAddr & !0xe0000000;
    }
  }
}
