/**
 * What each accessor of the access-port layer does to the session, as a pure
 * function of the configuration, the primitive's replies, the cached shadow
 * registers and the log of calls issued so far.  The methods of Session.Dap
 * are proved to behave exactly as these functions say, and the properties of
 * the layer are proved about them in AccessProps.
 *
 * The reply to the next call is always `o(|s.log|)`: the primitive's k-th
 * reply goes to the k-th call of the session.
 */
module AccessSpec {
  import opened DapTypes
  import opened Lanes

  /** Session state: the cached AP_Bank and CSW_Val, and the calls issued so far. */
  datatype St = St(sh: Shadow, log: seq<Txn>)

  /** Outcome of an operation: its return code, the new state and the value it hands back. */
  datatype Out = Out(status: int, st: St, value: bv32)

  /** Outcome of a block read: the DWORDs the primitive stored into the caller's buffer. */
  datatype BlockOut = BlockOut(status: int, st: St, words: seq<bv32>)

  function Append(s: St, t: Txn): St {
    s.(log := s.log + [t])
  }

  /** The words a repeated read stores: `count` of them, zero where the reply has none. */
  function Words(r: Reply, count: nat): (ws: seq<bv32>)
    ensures |ws| == count
    ensures forall i :: 0 <= i < count ==> ws[i] == Word(r, i)
  {
    seq(count, (i: int) requires 0 <= i < count => Word(r, i))
  }

  // ---------------------------------------------------------------------
  // Fault handling

  /** RDDI_DAP_Abort: one write of the ABORT register; a failing write is ERROR_DEBUG. */
  function Abort(c: Config, o: Oracle, s: St, v: bv32): Out {
    if !c.handle then Out(RDDI_DAP_ERROR_INTERNAL, s, 0)
    else
        var r := o(|s.log|);
      Out(if r.status != 0 then RDDI_DAP_ERROR_DEBUG else 0, Append(s, RegWrite(DAP_REG_DP_ABORT, v)), 0)
  }

  /**
   * RDDI_DAP_CheckStatus: a timeout aborts the transfer, a sticky fault clears
   * the sticky flags, and both then report ERROR_MEMORY (or the abort's own
   * error); any other failure is RDDI_DAP_ERROR.
   */
  function CheckStatus(c: Config, o: Oracle, s: St, status: int): Out {
    if status == RDDI_DAP_OPERATION_TIMEOUT then
      var a := Abort(c, o, s, DAPABORT);
      Out(if a.status != 0 then a.status else RDDI_DAP_ERROR_MEMORY, a.st, 0)
    else if status == RDDI_DAP_DP_STICKY_ERR then
      var a := Abort(c, o, s, CLEAR_STICKY);
      Out(if a.status != 0 then a.status else RDDI_DAP_ERROR_MEMORY, a.st, 0)
    else if status != 0 then Out(RDDI_DAP_ERROR, s, 0)
    else Out(0, s, 0)
  }

  /** One primitive call followed by CheckStatus; the value is word `i` of the reply. */
  function Checked(c: Config, o: Oracle, s: St, t: Txn, i: nat): Out {
    var r := o(|s.log|);
    var x := CheckStatus(c, o, Append(s, t), r.status);
    Out(x.status, x.st, Word(r, i))
  }

  // ---------------------------------------------------------------------
  // DP and AP registers

  /** The body of RDDI_DAP_ReadDP / RDDI_DAP_WriteDP. */
  function DPAccess(c: Config, o: Oracle, s: St, t: Txn): Out {
    if !c.handle then Out(RDDI_DAP_ERROR_INTERNAL, s, 0)
    else DPTry(c, o, s, t, false)
  }

  /**
   * The `retry:` loop of RDDI_DAP_ReadDP / RDDI_DAP_WriteDP: after a first
   * ERROR_MEMORY the transaction is issued once more (`abort` set), and a
   * second ERROR_MEMORY becomes ERROR_DEBUG.
   */
  function DPTry(c: Config, o: Oracle, s: St, t: Txn, abort: bool): Out
    decreases if abort then 0 else 1
  {
    var x := Checked(c, o, s, t, 0);
    if x.status != RDDI_DAP_ERROR_MEMORY then x
    else if abort then Out(RDDI_DAP_ERROR_DEBUG, x.st, x.value)
    else DPTry(c, o, x.st, t, true)
  }

  function ReadDP(c: Config, o: Oracle, s: St, adr: bv8): Out {
    DPAccess(c, o, s, RegRead(DpId(adr)))
  }

  function WriteDP(c: Config, o: Oracle, s: St, adr: bv8, v: bv32): Out {
    DPAccess(c, o, s, RegWrite(DpId(adr), v))
  }

  /** STKERRCLR | WDERRCLR: the ABORT value that clears a sticky error. */
  const CLEAR_STICKY: bv32 := STKERRCLR | WDERRCLR

  /** `AP_Sel | bank`: the SELECT value for an AP bank. */
  function SelectValue(c: Config, bank: bv32): bv32 {
    c.apSel | bank
  }

  /** `(adr ^ AP_Bank) & APBANKSEL`: the register is outside the selected bank. */
  predicate BankMiss(adr: bv8, apBank: bv32) {
    ((adr as bv32) ^ apBank) & APBANKSEL != 0
  }

  /**
   * The body of RDDI_DAP_ReadAP / RDDI_DAP_WriteAP: SELECT is written only on
   * a bank miss, AP_Bank follows only a successful SELECT write, then `t`
   * (addressed within the bank) is issued and checked.
   */
  function APAccess(c: Config, o: Oracle, s: St, adr: bv8, t: Txn): Out {
    if !c.handle then Out(RDDI_DAP_ERROR_INTERNAL, s, 0)
    else if BankMiss(adr, s.sh.apBank) then
      var w := WriteDP(c, o, s, DP_SELECT, SelectValue(c, Bank(adr)));
      if w.status != 0 then Out(w.status, w.st, 0)
      else
        var s1 := w.st.(sh := w.st.sh.(apBank := Bank(adr)));
        Checked(c, o, s1, t, 0)
    else Checked(c, o, s, t, 0)
  }

  function ReadAP(c: Config, o: Oracle, s: St, adr: bv8): Out {
    APAccess(c, o, s, adr, RegRead(ApId(adr)))
  }

  function WriteAP(c: Config, o: Oracle, s: St, adr: bv8, v: bv32): Out {
    APAccess(c, o, s, adr, RegWrite(ApId(adr), v))
  }

  // ---------------------------------------------------------------------
  // Memory access through TAR and DRW

  /** Select bank 0 (writing SELECT only when AP_Bank is not already 0). */
  function BankZero(c: Config, o: Oracle, s: St): Out {
    if s.sh.apBank == 0 then Out(0, s, 0)
    else
      var w := WriteDP(c, o, s, DP_SELECT, SelectValue(c, 0));
      if w.status != 0 then Out(w.status, w.st, 0)
      else Out(0, w.st.(sh := w.st.sh.(apBank := 0)), 0)
  }

  /**
   * Make the `mask` field of CSW equal `want`, writing CSW only when the
   * cached value differs; the cache takes the new value before the write.
   */
  function SetCsw(c: Config, o: Oracle, s: St, mask: bv32, want: bv32): Out {
    if CswHas(s.sh.csw, mask, want) then Out(0, s, 0)
    else
      var v := CswWith(s.sh.csw, mask, want);
      var w := WriteAP(c, o, s.(sh := s.sh.(csw := v)), AP_CSW, v);
      Out(w.status, w.st, 0)
  }

  /** `(csw & mask) == want` */
  predicate CswHas(csw: bv32, mask: bv32, want: bv32) {
    csw & mask == want
  }

  /** `(csw & ~mask) | want` */
  function CswWith(csw: bv32, mask: bv32, want: bv32): bv32 {
    (csw & !mask) | want
  }

  /** RDDI_DAP_ReadData: one two-entry batch, TAR = adr then a DRW read. */
  function ReadData(c: Config, o: Oracle, s: St, adr: Addr): Out {
    if !c.handle then Out(RDDI_DAP_ERROR_INTERNAL, s, 0)
    else Checked(c, o, s, ReadDataTxn(adr), 1)
  }

  /** The batch of RDDI_DAP_ReadData; the DRW slot is sent as 0. */
  function ReadDataTxn(adr: Addr): Txn {
    AccessBlock([DAP_AP_REG_TAR, DAP_AP_REG_DRW | DAP_REG_RnW], [adr as bv32, 0])
  }

  /** The batch of RDDI_DAP_WriteData. */
  function WriteDataTxn(adr: Addr, v: bv32): Txn {
    AccessBlock([DAP_AP_REG_TAR, DAP_AP_REG_DRW], [adr as bv32, v])
  }

  /** RDDI_DAP_WriteData: one two-entry batch, TAR = adr then DRW = v. */
  function WriteData(c: Config, o: Oracle, s: St, adr: Addr, v: bv32): Out {
    if !c.handle then Out(RDDI_DAP_ERROR_INTERNAL, s, 0)
    else Checked(c, o, s, WriteDataTxn(adr, v), 0)
  }

  /**
   * What every sized accessor does before its data batch: select bank 0,
   * then make the CSW size field equal `size`.
   */
  function SizeSetup(c: Config, o: Oracle, s: St, size: bv32): Out {
    var b := BankZero(c, o, s);
    if b.status != 0 then b
    else SetCsw(c, o, b.st, CSW_SIZE, size)
  }

  /** RDDI_DAP_ReadD32/16/8 up to the lane extraction: the value is the whole DRW word. */
  function SizedRead(c: Config, o: Oracle, s: St, size: bv32, adr: Addr): Out {
    var w := SizeSetup(c, o, s, size);
    if w.status != 0 then w
    else ReadData(c, o, w.st, adr)
  }

  /** RDDI_DAP_WriteD32/16/8 with the value already placed on its lane. */
  function SizedWrite(c: Config, o: Oracle, s: St, size: bv32, adr: Addr, word: bv32): Out {
    var w := SizeSetup(c, o, s, size);
    if w.status != 0 then w
    else WriteData(c, o, w.st, adr, word)
  }

  function ReadD32(c: Config, o: Oracle, s: St, adr: Addr): Out {
    SizedRead(c, o, s, CSW_SIZE32, adr)
  }

  function WriteD32(c: Config, o: Oracle, s: St, adr: Addr, v: bv32): Out {
    SizedWrite(c, o, s, CSW_SIZE32, adr, v)
  }

  function WriteD16(c: Config, o: Oracle, s: St, adr: Addr, v: bv16): Out {
    SizedWrite(c, o, s, CSW_SIZE16, adr, PlaceHalf(v, adr))
  }

  function WriteD8(c: Config, o: Oracle, s: St, adr: Addr, v: bv8): Out {
    SizedWrite(c, o, s, CSW_SIZE8, adr, PlaceByte(v, adr))
  }

  // ---------------------------------------------------------------------
  // Sticky errors

  /** STICKYERR | WDATAERR */
  const ERROR_FLAGS: bv32 := STICKYERR | WDATAERR

  /** The flags that count as a latched error on the configured port. */
  function StickyFlags(c: Config): bv32 {
    if c.swPort then ERROR_FLAGS else STICKYERR
  }

  /**
   * RDDI_DAP_CheckStickyError: with a latched error, clear it (ABORT on
   * Serial Wire, writing CTRL/STAT back on JTAG) and report ERROR_MEMORY.
   */
  function CheckSticky(c: Config, o: Oracle, s: St, stat: bv32): Out {
    if !AnySet(stat, StickyFlags(c)) then Out(0, s, 0)
    else
      var w := if c.swPort then Abort(c, o, s, CLEAR_STICKY)
               else WriteDP(c, o, s, DP_CTRL_STAT, stat);
      Out(if w.status != 0 then w.status else RDDI_DAP_ERROR_MEMORY, w.st, 0)
  }

  /** RDDI_DAP_StickyError: read CTRL/STAT and check it. */
  function Sticky(c: Config, o: Oracle, s: St): Out {
    var r := ReadDP(c, o, s, DP_CTRL_STAT);
    if r.status != 0 then r
    else CheckSticky(c, o, r.st, r.value)
  }

  // ---------------------------------------------------------------------
  // Block transfers

  /** What ReadBlock, WriteBlock and VerifyBlock demand of `nMany`. */
  predicate BlockOk(c: Config, n: int) {
    n != 0 && n % 4 == 0 && n <= c.rwPage
  }

  /** The CSW fields a block transfer sets, and their value: 32-bit, single increment. */
  const BLOCK_CSW_MASK: bv32 := CSW_SIZE | CSW_ADDRINC
  const BLOCK_CSW: bv32 := CSW_SIZE32 | CSW_SADDRINC

  /** The ABORT value with which VerifyBlock clears a sticky fault. */
  const CLEAR_VERIFY: bv32 := STKERRCLR | STICKYCMP | WDERRCLR

  /** Bank 0, 32-bit single-increment CSW, TAR = adr. */
  function BlockSetup(c: Config, o: Oracle, s: St, adr: Addr): Out {
    var b := BankZero(c, o, s);
    if b.status != 0 then b
    else
      var w := SetCsw(c, o, b.st, BLOCK_CSW_MASK, BLOCK_CSW);
      if w.status != 0 then w
      else WriteAP(c, o, w.st, AP_TAR, adr as bv32)
  }

  /** RDDI_DAP_ReadBlock of `n` bytes at `adr`. */
  function ReadBlock(c: Config, o: Oracle, s: St, adr: Addr, n: nat): (b: BlockOut)
    ensures 4 * |b.words| <= n
  {
    if !c.handle || !BlockOk(c, n) then BlockOut(RDDI_DAP_ERROR_INTERNAL, s, [])
    else
      var b := BlockSetup(c, o, s, adr);
      if b.status != 0 then BlockOut(b.status, b.st, [])
      else
        var r := o(|b.st.log|);
        var ws := Words(r, n / 4);
        var x := CheckStatus(c, o, Append(b.st, ReadRepeat(n / 4, DAP_AP_REG_DRW)), r.status);
        if x.status != 0 then BlockOut(x.status, x.st, ws)
        else
          var y := Sticky(c, o, x.st);
          BlockOut(y.status, y.st, ws)
  }

  /** The repeated DRW write of a run of buffer bytes, as DWORDs. */
  function WriteRepeatTxn(bs: seq<bv8>): Txn
    requires |bs| % 4 == 0
  {
    WriteRepeat(|bs| / 4, DAP_AP_REG_DRW, BytesWords(bs))
  }

  /** RDDI_DAP_WriteBlock of the bytes `bs` at `adr`. */
  function WriteBlock(c: Config, o: Oracle, s: St, adr: Addr, bs: seq<bv8>): Out {
    if !c.handle || !BlockOk(c, |bs|) then Out(RDDI_DAP_ERROR_INTERNAL, s, 0)
    else
      var b := BlockSetup(c, o, s, adr);
      if b.status != 0 then b
      else
        var r := o(|b.st.log|);
        var x := CheckStatus(c, o, Append(b.st, WriteRepeatTxn(bs)), r.status);
        if x.status != 0 then x
        else Sticky(c, o, x.st)
  }

  /** `val & ~TRNMODE` */
  function NoTrn(v: bv32): bv32 {
    v & !TRNMODE
  }

  /**
   * Where RDDI_DAP_VerifyBlock stands when it reaches its `end` label: the
   * pending return code, the verify-mismatch flag and the CTRL/STAT value.
   */
  datatype Pending = Pending(status: int, flag: int, st: St, val: bv32)

  /** From the repeated write (with reply `r`) to the `end` label. */
  function VerifyOutcome(c: Config, o: Oracle, s: St, r: Reply, val: bv32): Pending {
    if r.status == RDDI_DAP_OPERATION_TIMEOUT then
      var a := Abort(c, o, s, DAPABORT);
      Pending(if a.status != 0 then a.status else RDDI_DAP_ERROR_MEMORY, 0, a.st, val)
    else if r.status == RDDI_DAP_DP_STICKY_ERR then
      var d := ReadDP(c, o, s, DP_CTRL_STAT);
      if d.status != 0 then Pending(d.status, 0, d.st, d.value)
      else
        var a := Abort(c, o, d.st, CLEAR_VERIFY);
        if a.status != 0 then Pending(a.status, 0, a.st, d.value)
        else
          Pending(if AnySet(d.value, ERROR_FLAGS) then RDDI_DAP_ERROR_MEMORY else 0,
                  if AnySet(d.value, STICKYCMP) then VERIFY_MISMATCH else 0, a.st, d.value)
    else if r.status == RDDI_SUCCESS then
      var d := ReadDP(c, o, s, DP_CTRL_STAT);
      if d.status != 0 then Pending(d.status, 0, d.st, d.value)
      else
        Pending(if AnySet(d.value, STICKYERR) then RDDI_DAP_ERROR_MEMORY else 0,
                if AnySet(d.value, STICKYCMP) then VERIFY_MISMATCH else 0, d.st, d.value)
    else Pending(RDDI_DAP_ERROR, 0, s, val)
  }

  /** The `end` label: restore normal transfer mode, keeping a pending error. */
  function VerifyEnd(c: Config, o: Oracle, p: Pending): Out {
    var w := WriteDP(c, o, p.st, DP_CTRL_STAT, NoTrn(p.val));
    if p.status != 0 then Out(p.status, w.st, 0)
    else if w.status != 0 then Out(w.status, w.st, 0)
    else Out(p.flag, w.st, 0)
  }

  /** The pushed-compare setting of CTRL/STAT built from its current value. */
  function CompareMode(v: bv32): bv32 {
    NoTrn(v) | TRNVERIFY | STICKYCMP
  }

  /** RDDI_DAP_VerifyBlock of the bytes `bs` at `adr`; -1 reports a mismatch. */
  function VerifyBlock(c: Config, o: Oracle, s: St, adr: Addr, bs: seq<bv8>): Out {
    if !c.handle || !BlockOk(c, |bs|) then Out(RDDI_DAP_ERROR_INTERNAL, s, 0)
    else
      var b := BlockSetup(c, o, s, adr);
      if b.status != 0 then b
      else
        var d := ReadDP(c, o, b.st, DP_CTRL_STAT);
        if d.status != 0 then d.(value := 0)
        else
          var val := CompareMode(d.value);
          var w := WriteDP(c, o, d.st, DP_CTRL_STAT, val);
          if w.status != 0 then w
          else
            var r := o(|w.st.log|);
            var p := VerifyOutcome(c, o, Append(w.st, WriteRepeatTxn(bs)), r, val);
            VerifyEnd(c, o, p)
  }
}
