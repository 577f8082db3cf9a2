/**
 * Properties of the access-port layer, proved about the functions of
 * AccessSpec and so, through the contracts of Session.Dap, about its
 * methods: how faults are classified and recovered, how often a DP
 * transaction is issued, when SELECT and CSW are written, what the sized
 * accessors send, and what the block transfers return.
 */
module AccessProps {
  import opened DapTypes
  import opened Lanes
  import opened AccessSpec

  /** `s2` extends the log of `s` and leaves the cached registers alone. */
  predicate Extends(s: St, s2: St) {
    s.log <= s2.log && s2.sh == s.sh
  }

  /** The ABORT write RDDI_DAP_Abort issues for `v`. */
  function AbortTxn(v: bv32): Txn {
    RegWrite(DAP_REG_DP_ABORT, v)
  }

  // ---------------------------------------------------------------------
  // Fault classification

  /**
   * RDDI_DAP_CheckStatus: success passes through and an unclassified failure
   * becomes RDDI_DAP_ERROR, both without a transaction; a timeout issues
   * exactly one ABORT write with DAPABORT and a sticky fault exactly one with
   * STKERRCLR|WDERRCLR, after which the result is ERROR_MEMORY, or
   * ERROR_DEBUG when that write itself failed.  The cached registers never
   * change.
   */
  lemma CheckStatusMapping(c: Config, o: Oracle, s: St, status: int)
    requires c.handle
    ensures var x := CheckStatus(c, o, s, status);
      && x.st.sh == s.sh
      && (status == 0 ==> x.status == 0 && x.st == s)
      && (status != 0 && status != RDDI_DAP_OPERATION_TIMEOUT && status != RDDI_DAP_DP_STICKY_ERR ==>
            x.status == RDDI_DAP_ERROR && x.st == s)
      && (status == RDDI_DAP_OPERATION_TIMEOUT ==>
            x.st.log == s.log + [AbortTxn(DAPABORT)] &&
            x.status == (if o(|s.log|).status != 0 then RDDI_DAP_ERROR_DEBUG else RDDI_DAP_ERROR_MEMORY))
      && (status == RDDI_DAP_DP_STICKY_ERR ==>
            x.st.log == s.log + [AbortTxn(STKERRCLR | WDERRCLR)] &&
            x.status == (if o(|s.log|).status != 0 then RDDI_DAP_ERROR_DEBUG else RDDI_DAP_ERROR_MEMORY))
  {
  }

  /** A failing primitive call never reads as success: CheckStatus keeps every failure a failure. */
  lemma CheckStatusFailure(c: Config, o: Oracle, s: St, status: int)
    ensures (CheckStatus(c, o, s, status).status == 0) == (status == 0)
  {
  }

  // ---------------------------------------------------------------------
  // DP access with a single retry

  /**
   * RDDI_DAP_ReadDP / RDDI_DAP_WriteDP issue the transaction once, and once
   * more only when the first attempt ended in ERROR_MEMORY; a second
   * ERROR_MEMORY becomes ERROR_DEBUG, so a DP access never reports
   * ERROR_MEMORY.  Besides the (at most two) attempts only the ABORT writes
   * of CheckStatus are issued, and AP_Bank and CSW_Val are untouched.
   */
  lemma DPRetry(c: Config, o: Oracle, s: St, t: Txn)
    requires c.handle
    ensures var x := DPAccess(c, o, s, t);
      var f := Checked(c, o, s, t, 0);
      && x.status != RDDI_DAP_ERROR_MEMORY
      && Extends(s, x.st)
      && s.log + [t] <= x.st.log && |x.st.log| <= |s.log| + 4
      && (f.status != RDDI_DAP_ERROR_MEMORY ==> x == f)
      && (f.status == RDDI_DAP_ERROR_MEMORY ==>
            var g := Checked(c, o, f.st, t, 0);
            x.st == g.st && f.st.log + [t] <= x.st.log &&
            x.status == (if g.status == RDDI_DAP_ERROR_MEMORY then RDDI_DAP_ERROR_DEBUG else g.status))
  {
    var f := Checked(c, o, s, t, 0);
    CheckedShape(c, o, s, t);
    if f.status == RDDI_DAP_ERROR_MEMORY {
      CheckedShape(c, o, f.st, t);
    }
  }

  /** One primitive call and its CheckStatus: the call, then at most one ABORT write. */
  lemma CheckedShape(c: Config, o: Oracle, s: St, t: Txn)
    requires c.handle
    ensures var x := Checked(c, o, s, t, 0);
      Extends(s, x.st) && s.log + [t] <= x.st.log && |x.st.log| <= |s.log| + 2
  {
    var s1 := Append(s, t);
    CheckStatusMapping(c, o, s1, o(|s.log|).status);
  }

  /** Without an open connection no DP, AP or data access issues anything. */
  lemma NoHandleNoTraffic(c: Config, o: Oracle, s: St, t: Txn, adr: bv8, a: Addr, v: bv32)
    requires !c.handle
    ensures DPAccess(c, o, s, t) == Out(RDDI_DAP_ERROR_INTERNAL, s, 0)
    ensures APAccess(c, o, s, adr, t) == Out(RDDI_DAP_ERROR_INTERNAL, s, 0)
    ensures ReadData(c, o, s, a) == Out(RDDI_DAP_ERROR_INTERNAL, s, 0)
    ensures WriteData(c, o, s, a, v) == Out(RDDI_DAP_ERROR_INTERNAL, s, 0)
  {
  }

  // ---------------------------------------------------------------------
  // The AP bank cache

  /** The SELECT write of a bank switch. */
  function SelectTxn(c: Config, bank: bv32): Txn {
    RegWrite(DpId(DP_SELECT), SelectValue(c, bank))
  }

  /**
   * RDDI_DAP_ReadAP / RDDI_DAP_WriteAP: on a bank hit the register
   * transaction is the first thing issued and AP_Bank stays; on a miss
   * SELECT = AP_Sel | (adr & APBANKSEL) is issued first, and AP_Bank takes
   * the new bank exactly when that write succeeded.  CSW_Val never changes.
   */
  lemma APBankCache(c: Config, o: Oracle, s: St, adr: bv8, t: Txn)
    requires c.handle
    ensures var x := APAccess(c, o, s, adr, t);
      && x.st.sh.csw == s.sh.csw
      && s.log < x.st.log
      && (!BankMiss(adr, s.sh.apBank) ==> x == Checked(c, o, s, t, 0) && s.log + [t] <= x.st.log)
      && (BankMiss(adr, s.sh.apBank) ==>
            var w := WriteDP(c, o, s, DP_SELECT, SelectValue(c, Bank(adr)));
            s.log + [SelectTxn(c, Bank(adr))] <= x.st.log &&
            (w.status != 0 ==> x == Out(w.status, w.st, 0)) &&
            (w.status == 0 ==> x.st.sh.apBank == Bank(adr)))
  {
    CheckedShape(c, o, s, t);
    if BankMiss(adr, s.sh.apBank) {
      var w := WriteDP(c, o, s, DP_SELECT, SelectValue(c, Bank(adr)));
      DPRetry(c, o, s, RegWrite(DpId(DP_SELECT), SelectValue(c, Bank(adr))));
      if w.status == 0 {
        var s1 := w.st.(sh := w.st.sh.(apBank := Bank(adr)));
        CheckedShape(c, o, s1, t);
      }
    }
  }

  /** After a successful AP access the bank of its register is selected. */
  lemma APAccessSelects(c: Config, o: Oracle, s: St, adr: bv8, t: Txn)
    requires c.handle
    ensures var x := APAccess(c, o, s, adr, t);
      x.status == 0 ==> !BankMiss(adr, x.st.sh.apBank)
  {
    var x := APAccess(c, o, s, adr, t);
    if BankMiss(adr, s.sh.apBank) && x.status == 0 {
      var w := WriteDP(c, o, s, DP_SELECT, SelectValue(c, Bank(adr)));
      var s1 := w.st.(sh := w.st.sh.(apBank := Bank(adr)));
      CheckedShape(c, o, s1, t);
      BankOfBankHits(adr);
    }
  }

  /** Writing the bank of `adr` to SELECT makes `adr` a hit. */
  lemma BankOfBankHits(adr: bv8)
    ensures !BankMiss(adr, Bank(adr))
  {
  }

  /** Two registers in the same bank: a hit for one is a hit for the other. */
  lemma SameBankSameHit(a: bv8, b: bv8, apBank: bv32)
    requires Bank(a) == Bank(b)
    ensures BankMiss(a, apBank) == BankMiss(b, apBank)
  {
    assert ((a as bv32) ^ apBank) & APBANKSEL == Bank(a) ^ (apBank & APBANKSEL);
    assert ((b as bv32) ^ apBank) & APBANKSEL == Bank(b) ^ (apBank & APBANKSEL);
  }

  /** The register ID of an AP register is the word offset inside its bank. */
  lemma ApIdInBank(adr: bv8)
    ensures DAP_REG_AP_0x0 <= ApId(adr) <= DAP_REG_AP_0xC
    ensures ApId(adr) == ApId(adr & 0x0F)
  {
  }

  /** One access of a run: RDDI_DAP_ReadAP of `adr`, or RDDI_DAP_WriteAP of `v` to `adr`. */
  datatype APOp = APRead(adr: bv8) | APWrite(adr: bv8, v: bv32)

  /** The AP transaction an access issues. */
  function OpTxn(op: APOp): Txn {
    match op
    case APRead(adr) => RegRead(ApId(adr))
    case APWrite(adr, v) => RegWrite(ApId(adr), v)
  }

  /** The access itself: ReadAP or WriteAP. */
  function APOpAccess(c: Config, o: Oracle, s: St, op: APOp): (x: Out)
    ensures op.APRead? ==> x == ReadAP(c, o, s, op.adr)
    ensures op.APWrite? ==> x == WriteAP(c, o, s, op.adr, op.v)
  {
    APAccess(c, o, s, op.adr, OpTxn(op))
  }

  /** A run of AP register reads and writes, stopping at the first error. */
  function APRun(c: Config, o: Oracle, s: St, ops: seq<APOp>): Out
    decreases |ops|
  {
    if ops == [] then Out(0, s, 0)
    else
      var x := APOpAccess(c, o, s, ops[0]);
      if x.status != 0 then x else APRun(c, o, x.st, ops[1..])
  }

  /** No SELECT write in a run of transactions. */
  predicate NoSelect(ts: seq<Txn>) {
    forall i :: 0 <= i < |ts| ==> !(ts[i].RegWrite? && ts[i].id == DpId(DP_SELECT))
  }

  /** An AP register read or write is never a write of the DP SELECT register. */
  lemma APTxnNotSelect(op: APOp)
    ensures NoSelect([OpTxn(op)])
  {
    ApIdInBank(op.adr);
  }

  /**
   * N consecutive reads and writes of registers in one bank: once the first
   * has succeeded, none of the others writes SELECT, so the whole run issues
   * at most the one bank switch of its first access.
   */
  lemma {:induction false} SameBankOneSelect(c: Config, o: Oracle, s: St, ops: seq<APOp>)
    requires c.handle && |ops| > 0
    requires forall i :: 0 <= i < |ops| ==> Bank(ops[i].adr) == Bank(ops[0].adr)
    ensures var x := APOpAccess(c, o, s, ops[0]);
      var y := APRun(c, o, s, ops);
      x.status == 0 ==> x.st.log <= y.st.log && NoSelect(y.st.log[|x.st.log|..])
  {
    var x := APOpAccess(c, o, s, ops[0]);
    if x.status == 0 {
      APAccessSelects(c, o, s, ops[0].adr, OpTxn(ops[0]));
      HitRunNoSelect(c, o, x.st, ops[1..], Bank(ops[0].adr));
    }
  }

  /** Reads and writes that all hit the cached bank issue no SELECT write and keep AP_Bank. */
  lemma {:induction false} HitRunNoSelect(c: Config, o: Oracle, s: St, ops: seq<APOp>, bank: bv32)
    requires c.handle
    requires forall i :: 0 <= i < |ops| ==> Bank(ops[i].adr) == bank
    requires forall i :: 0 <= i < |ops| ==> !BankMiss(ops[i].adr, s.sh.apBank)
    ensures var y := APRun(c, o, s, ops);
      s.log <= y.st.log && NoSelect(y.st.log[|s.log|..]) && y.st.sh == s.sh
    decreases |ops|
  {
    if ops != [] {
      var t := OpTxn(ops[0]);
      var x := APOpAccess(c, o, s, ops[0]);
      assert x == Checked(c, o, s, t, 0);
      APTxnNotSelect(ops[0]);
      CheckedNoSelect(c, o, s, t);
      if x.status == 0 {
        HitRunNoSelect(c, o, x.st, ops[1..], bank);
        var y := APRun(c, o, x.st, ops[1..]);
        assert y.st.log[|s.log|..] == x.st.log[|s.log|..] + y.st.log[|x.st.log|..];
      }
    }
  }

  /** A single AP register transaction and its fault handling write no SELECT. */
  lemma CheckedNoSelect(c: Config, o: Oracle, s: St, t: Txn)
    requires c.handle && NoSelect([t])
    ensures var x := Checked(c, o, s, t, 0);
      Extends(s, x.st) && NoSelect(x.st.log[|s.log|..])
  {
    CheckStatusMapping(c, o, Append(s, t), o(|s.log|).status);
  }

  // ---------------------------------------------------------------------
  // The CSW shadow and the sized accessors

  /**
   * `(csw & ~mask) | want` puts `want` into the field and keeps every bit
   * outside it: the address-increment field left by a block transfer
   * survives a change of the size field.
   */
  lemma CswWithField(csw: bv32, mask: bv32, want: bv32)
    requires want & !mask == 0
    ensures CswHas(CswWith(csw, mask, want), mask, want)
    ensures CswWith(csw, mask, want) & !mask == csw & !mask
  {
  }

  /**
   * SetCsw writes CSW only when the cached field differs, and then with the
   * new value as the first transaction of a bank-0 session; CSW_Val takes
   * that value before the write, so it holds it even when the write fails.
   */
  lemma SetCswOnlyOnChange(c: Config, o: Oracle, s: St, mask: bv32, want: bv32)
    requires c.handle
    ensures var x := SetCsw(c, o, s, mask, want);
      var v := CswWith(s.sh.csw, mask, want);
      && (CswHas(s.sh.csw, mask, want) ==> x == Out(0, s, 0))
      && (!CswHas(s.sh.csw, mask, want) ==>
            x.st.sh.csw == v && s.log < x.st.log &&
            (s.sh.apBank == 0 ==> s.log + [RegWrite(ApId(AP_CSW), v)] <= x.st.log && x.st.sh.apBank == 0))
  {
    if !CswHas(s.sh.csw, mask, want) {
      var v := CswWith(s.sh.csw, mask, want);
      APBankCache(c, o, s.(sh := s.sh.(csw := v)), AP_CSW, RegWrite(ApId(AP_CSW), v));
    }
  }

  /**
   * Selecting bank 0 writes SELECT = AP_Sel only when AP_Bank is not already
   * 0, and sets AP_Bank to 0 only after that write succeeded.
   */
  lemma BankZeroOnlyOnChange(c: Config, o: Oracle, s: St)
    requires c.handle
    ensures var x := BankZero(c, o, s);
      && (s.sh.apBank == 0 ==> x == Out(0, s, 0))
      && (s.sh.apBank != 0 ==>
            s.log + [SelectTxn(c, 0)] <= x.st.log &&
            x.st.sh.csw == s.sh.csw &&
            x.st.sh.apBank == (if x.status == 0 then 0 else s.sh.apBank))
  {
    if s.sh.apBank != 0 {
      DPRetry(c, o, s, RegWrite(DpId(DP_SELECT), SelectValue(c, 0)));
    }
  }

  /** A successful bank-0 / CSW-size setup leaves bank 0 and the size field selected. */
  lemma SizeSetupShape(c: Config, o: Oracle, s: St, size: bv32)
    requires c.handle && size & !CSW_SIZE == 0
    ensures var w := SizeSetup(c, o, s, size);
      && s.log <= w.st.log
      && (s.sh.apBank == 0 && CswHas(s.sh.csw, CSW_SIZE, size) ==> w == Out(0, s, 0))
      && (w.status == 0 ==> w.st.sh.apBank == 0 && CswHas(w.st.sh.csw, CSW_SIZE, size))
  {
    BankZeroOnlyOnChange(c, o, s);
    var b := BankZero(c, o, s);
    if b.status == 0 {
      SetCswOnlyOnChange(c, o, b.st, CSW_SIZE, size);
      CswWithField(b.st.sh.csw, CSW_SIZE, size);
    }
  }

  /** A call whose CheckStatus succeeds issued nothing after it, and hands back word `i` of its reply. */
  lemma CheckedSuccess(c: Config, o: Oracle, s: St, t: Txn, i: nat)
    requires c.handle
    ensures var x := Checked(c, o, s, t, i);
      x.status == 0 ==> x.st == Append(s, t) && x.value == Word(o(|s.log|), i)
  {
    CheckStatusMapping(c, o, Append(s, t), o(|s.log|).status);
  }

  /**
   * A sized read (RDDI_DAP_ReadD32/16/8 before the lane extraction) that
   * succeeds leaves bank 0 selected and the CSW size field at `size`; its
   * last transaction is the one two-entry batch TAR = adr, then a DRW read,
   * and the value is the DRW word the primitive returned for it.  With bank
   * 0 already selected and the size already set, that batch is all it issues.
   */
  lemma SizedReadShape(c: Config, o: Oracle, s: St, size: bv32, adr: Addr)
    requires c.handle && size & !CSW_SIZE == 0
    ensures var x := SizedRead(c, o, s, size, adr);
      && (s.sh.apBank == 0 && CswHas(s.sh.csw, CSW_SIZE, size) ==>
            x == Checked(c, o, s, ReadDataTxn(adr), 1))
      && (x.status == 0 ==>
            && s.log < x.st.log
            && x.st.log[|x.st.log| - 1] == ReadDataTxn(adr)
            && x.value == Word(o(|x.st.log| - 1), 1)
            && x.st.sh.apBank == 0 && CswHas(x.st.sh.csw, CSW_SIZE, size))
  {
    SizeSetupShape(c, o, s, size);
    var w := SizeSetup(c, o, s, size);
    if w.status == 0 {
      CheckedSuccess(c, o, w.st, ReadDataTxn(adr), 1);
    }
  }

  /** The write counterpart of SizedReadShape: the last transaction is TAR = adr, then DRW = word. */
  lemma SizedWriteShape(c: Config, o: Oracle, s: St, size: bv32, adr: Addr, word: bv32)
    requires c.handle && size & !CSW_SIZE == 0
    ensures var x := SizedWrite(c, o, s, size, adr, word);
      && (s.sh.apBank == 0 && CswHas(s.sh.csw, CSW_SIZE, size) ==>
            x == Checked(c, o, s, WriteDataTxn(adr, word), 0))
      && (x.status == 0 ==>
            && s.log < x.st.log
            && x.st.log[|x.st.log| - 1] == WriteDataTxn(adr, word)
            && x.st.sh.apBank == 0 && CswHas(x.st.sh.csw, CSW_SIZE, size))
  {
    SizeSetupShape(c, o, s, size);
    var w := SizeSetup(c, o, s, size);
    if w.status == 0 {
      CheckedSuccess(c, o, w.st, WriteDataTxn(adr, word), 0);
    }
  }

  /**
   * What the sized accessors do with the bus lanes: a 16-bit access moves
   * the halfword lane `(adr & 2) << 3`, an 8-bit access the byte lane
   * `(adr & 3) << 3`, and the value a narrow write puts on the bus is the
   * value a narrow read at that address extracts.
   */
  lemma NarrowLanes(adr: Addr, h: bv16, b: bv8)
    ensures ExtractHalf(PlaceHalf(h, adr), adr) == h && PlaceHalf(h, adr) & !HalfLane(adr) == 0
    ensures ExtractByte(PlaceByte(b, adr), adr) == b && PlaceByte(b, adr) & !ByteLane(adr) == 0
  {
    HalfLaneRoundTrip(h, adr);
    ByteLaneRoundTrip(b, adr);
  }

  // ---------------------------------------------------------------------
  // Sticky errors

  /**
   * RDDI_DAP_CheckStickyError: with no error flag set nothing is issued and
   * the result is 0.  On Serial Wire a latched error is cleared by one ABORT
   * write of STKERRCLR|WDERRCLR; on JTAG the status is written back to
   * CTRL/STAT.  A clear that succeeds reports ERROR_MEMORY.
   */
  lemma StickyCheckCases(c: Config, o: Oracle, s: St, stat: bv32)
    requires c.handle
    ensures var x := CheckSticky(c, o, s, stat);
      && x.st.sh == s.sh
      && (!AnySet(stat, StickyFlags(c)) ==> x == Out(0, s, 0))
      && (AnySet(stat, StickyFlags(c)) && c.swPort ==>
            x.st.log == s.log + [AbortTxn(CLEAR_STICKY)] &&
            x.status == (if o(|s.log|).status != 0 then RDDI_DAP_ERROR_DEBUG else RDDI_DAP_ERROR_MEMORY))
      && (AnySet(stat, StickyFlags(c)) && !c.swPort ==>
            var w := WriteDP(c, o, s, DP_CTRL_STAT, stat);
            x.st == w.st && s.log + [RegWrite(DpId(DP_CTRL_STAT), stat)] <= x.st.log &&
            x.status == (if w.status != 0 then w.status else RDDI_DAP_ERROR_MEMORY))
  {
    if AnySet(stat, StickyFlags(c)) && !c.swPort {
      DPRetry(c, o, s, RegWrite(DpId(DP_CTRL_STAT), stat));
    }
  }

  /** On JTAG a write-data error alone is not a latched error; on Serial Wire it is. */
  lemma StickyFlagsByPort(c: Config, stat: bv32)
    ensures c.swPort ==> (AnySet(stat, StickyFlags(c)) <==> AnySet(stat, STICKYERR) || AnySet(stat, WDATAERR))
    ensures !c.swPort ==> (AnySet(stat, StickyFlags(c)) <==> AnySet(stat, STICKYERR))
  {
    assert stat & (STICKYERR | WDATAERR) == (stat & STICKYERR) | (stat & WDATAERR);
  }

  // ---------------------------------------------------------------------
  // Return codes

  /** 0 or one of the error codes of this layer. */
  predicate Code(status: int) {
    status == 0 || status == RDDI_DAP_ERROR || status == RDDI_DAP_ERROR_INTERNAL ||
    status == RDDI_DAP_ERROR_DEBUG || status == RDDI_DAP_ERROR_MEMORY
  }

  /** A DP access returns 0 or an error code of this layer, never the primitive's own codes. */
  lemma DPCode(c: Config, o: Oracle, s: St, t: Txn)
    ensures Code(DPAccess(c, o, s, t).status)
  {
    if c.handle {
      var f := Checked(c, o, s, t, 0);
      CheckStatusMapping(c, o, Append(s, t), o(|s.log|).status);
      if f.status == RDDI_DAP_ERROR_MEMORY {
        CheckStatusMapping(c, o, Append(f.st, t), o(|f.st.log|).status);
      }
    }
  }

  /** So does an AP access, with or without its bank switch. */
  lemma APCode(c: Config, o: Oracle, s: St, adr: bv8, t: Txn)
    ensures Code(APAccess(c, o, s, adr, t).status)
  {
    if c.handle {
      CheckStatusMapping(c, o, Append(s, t), o(|s.log|).status);
      if BankMiss(adr, s.sh.apBank) {
        var w := WriteDP(c, o, s, DP_SELECT, SelectValue(c, Bank(adr)));
        DPCode(c, o, s, RegWrite(DpId(DP_SELECT), SelectValue(c, Bank(adr))));
        var s1 := w.st.(sh := w.st.sh.(apBank := Bank(adr)));
        CheckStatusMapping(c, o, Append(s1, t), o(|s1.log|).status);
      }
    }
  }

  // ---------------------------------------------------------------------
  // Block transfers

  /** A length the block transfers refuse is ERROR_INTERNAL, with nothing issued. */
  lemma BlockRefusesBadLength(c: Config, o: Oracle, s: St, adr: Addr, n: nat, bs: seq<bv8>)
    requires !BlockOk(c, n) && !BlockOk(c, |bs|)
    ensures ReadBlock(c, o, s, adr, n) == BlockOut(RDDI_DAP_ERROR_INTERNAL, s, [])
    ensures WriteBlock(c, o, s, adr, bs) == Out(RDDI_DAP_ERROR_INTERNAL, s, 0)
    ensures VerifyBlock(c, o, s, adr, bs) == Out(RDDI_DAP_ERROR_INTERNAL, s, 0)
  {
  }

  /**
   * A successful block setup leaves bank 0 selected and CSW at 32-bit
   * transfers with single increment, and ends with TAR = adr.
   */
  lemma BlockSetupShape(c: Config, o: Oracle, s: St, adr: Addr)
    requires c.handle
    ensures var b := BlockSetup(c, o, s, adr);
      b.status == 0 ==>
        && s.log < b.st.log
        && b.st.log[|b.st.log| - 1] == RegWrite(ApId(AP_TAR), adr as bv32)
        && b.st.sh.apBank == 0 && CswHas(b.st.sh.csw, BLOCK_CSW_MASK, BLOCK_CSW)
  {
    BankZeroOnlyOnChange(c, o, s);
    var z := BankZero(c, o, s);
    if z.status == 0 {
      SetCswOnlyOnChange(c, o, z.st, BLOCK_CSW_MASK, BLOCK_CSW);
      CswWithField(z.st.sh.csw, BLOCK_CSW_MASK, BLOCK_CSW);
      var w := SetCsw(c, o, z.st, BLOCK_CSW_MASK, BLOCK_CSW);
      if w.status == 0 {
        CheckedSuccess(c, o, w.st, RegWrite(ApId(AP_TAR), adr as bv32), 0);
      }
    }
  }

  /**
   * A block read past its setup issues exactly one repeated read of
   * `n / 4` DRW words; when the primitive succeeds the sticky flags are
   * always checked afterwards, and the words the primitive stored are handed
   * back whatever the outcome.
   */
  lemma ReadBlockShape(c: Config, o: Oracle, s: St, adr: Addr, n: nat)
    requires c.handle && BlockOk(c, n)
    ensures var b := BlockSetup(c, o, s, adr);
      var x := ReadBlock(c, o, s, adr, n);
      && (b.status != 0 ==> x == BlockOut(b.status, b.st, []))
      && (b.status == 0 ==>
            var r := o(|b.st.log|);
            var s1 := Append(b.st, ReadRepeat(n / 4, DAP_AP_REG_DRW));
            && x.words == Words(r, n / 4)
            && (r.status == 0 ==> x.status == Sticky(c, o, s1).status && x.st == Sticky(c, o, s1).st)
            && (r.status != 0 ==> x.status != 0 && x.st == CheckStatus(c, o, s1, r.status).st))
  {
    var b := BlockSetup(c, o, s, adr);
    if b.status == 0 {
      CheckStatusMapping(c, o, Append(b.st, ReadRepeat(n / 4, DAP_AP_REG_DRW)), o(|b.st.log|).status);
    }
  }

  /** The write counterpart of ReadBlockShape: one repeated write of the buffer's DWORDs. */
  lemma WriteBlockShape(c: Config, o: Oracle, s: St, adr: Addr, bs: seq<bv8>)
    requires c.handle && BlockOk(c, |bs|)
    ensures var b := BlockSetup(c, o, s, adr);
      var x := WriteBlock(c, o, s, adr, bs);
      && (b.status != 0 ==> x == b)
      && (b.status == 0 ==>
            var r := o(|b.st.log|);
            var s1 := Append(b.st, WriteRepeat(|bs| / 4, DAP_AP_REG_DRW, BytesWords(bs)));
            && (r.status == 0 ==> x == Sticky(c, o, s1))
            && (r.status != 0 ==> x.status != 0 && x.st == CheckStatus(c, o, s1, r.status).st))
  {
    var b := BlockSetup(c, o, s, adr);
    if b.status == 0 {
      CheckStatusMapping(c, o, Append(b.st, WriteRepeatTxn(bs)), o(|b.st.log|).status);
    }
  }

  // ---------------------------------------------------------------------
  // Block verify

  /** Clearing TRNMODE: the restore write always puts CTRL/STAT back into normal transfer mode. */
  lemma NoTrnNormal(v: bv32)
    ensures NoTrn(v) & TRNMODE == TRNNORMAL
    ensures NoTrn(v) & !TRNMODE == v & !TRNMODE
  {
  }

  /** Pushed-compare mode selects verify transfers and sets STICKYCMP. */
  lemma CompareModeSelectsVerify(v: bv32)
    ensures CompareMode(v) & TRNMODE == TRNVERIFY
    ensures AnySet(CompareMode(v), STICKYCMP)
  {
  }

  /**
   * The `end` label of RDDI_DAP_VerifyBlock writes CTRL/STAT with TRNMODE
   * cleared as its first transaction; a pending error is returned whatever
   * that write reports, and only without one can the write's own error or
   * the mismatch flag come through.
   */
  lemma VerifyEndRestores(c: Config, o: Oracle, p: Pending)
    requires c.handle
    ensures var x := VerifyEnd(c, o, p);
      var w := WriteDP(c, o, p.st, DP_CTRL_STAT, NoTrn(p.val));
      && p.st.log + [RegWrite(DpId(DP_CTRL_STAT), NoTrn(p.val))] <= x.st.log
      && x.st == w.st
      && (p.status != 0 ==> x.status == p.status)
      && (p.status == 0 ==> x.status == (if w.status != 0 then w.status else p.flag))
  {
    DPRetry(c, o, p.st, RegWrite(DpId(DP_CTRL_STAT), NoTrn(p.val)));
  }

  /**
   * After the pushed-compare write the mismatch flag is raised only when
   * CTRL/STAT was read back without error with STICKYCMP set, and a latched
   * STICKYERR after a successful write is reported as an error;
   * `VerifyOutcomeMemory` pins the cases that give ERROR_MEMORY.
   */
  lemma VerifyOutcomeFlag(c: Config, o: Oracle, s: St, r: Reply, val: bv32)
    requires c.handle
    ensures var p := VerifyOutcome(c, o, s, r, val);
      && (p.flag == 0 || p.flag == VERIFY_MISMATCH)
      && (p.flag == VERIFY_MISMATCH ==> AnySet(p.val, STICKYCMP) && (r.status == 0 || r.status == RDDI_DAP_DP_STICKY_ERR))
      && (r.status == 0 && p.status == 0 ==> !AnySet(p.val, STICKYERR))
      && Code(p.status)
      && (r.status != 0 && r.status != RDDI_DAP_OPERATION_TIMEOUT && r.status != RDDI_DAP_DP_STICKY_ERR ==>
            p == Pending(RDDI_DAP_ERROR, 0, s, val))
  {
    if r.status == RDDI_DAP_DP_STICKY_ERR || r.status == 0 {
      DPCode(c, o, s, RegRead(DpId(DP_CTRL_STAT)));
    }
  }

  /**
   * The compare outcome is ERROR_MEMORY on exactly three paths: a timeout
   * whose ABORT succeeded; a clean write whose CTRL/STAT read-back shows
   * STICKYERR; and a sticky fault whose CTRL/STAT read and clearing ABORT
   * both succeeded, with STICKYERR or WDATAERR in the value read.
   */
  lemma VerifyOutcomeMemory(c: Config, o: Oracle, s: St, r: Reply, val: bv32)
    requires c.handle
    ensures var p := VerifyOutcome(c, o, s, r, val);
      var d := ReadDP(c, o, s, DP_CTRL_STAT);
      p.status == RDDI_DAP_ERROR_MEMORY <==>
        || (r.status == RDDI_DAP_OPERATION_TIMEOUT && Abort(c, o, s, DAPABORT).status == 0)
        || (r.status == RDDI_SUCCESS && d.status == 0 && AnySet(d.value, STICKYERR))
        || (r.status == RDDI_DAP_DP_STICKY_ERR && d.status == 0 &&
            Abort(c, o, d.st, CLEAR_VERIFY).status == 0 && AnySet(d.value, ERROR_FLAGS))
  {
    if r.status == RDDI_SUCCESS || r.status == RDDI_DAP_DP_STICKY_ERR {
      DPRetry(c, o, s, RegRead(DpId(DP_CTRL_STAT)));
    }
  }

  /**
   * RDDI_DAP_VerifyBlock returns ERROR_MEMORY (the code on which
   * RDDI_DAP_VerifyARMMem falls back to word accesses) exactly when its
   * setup did, or when the setup, the CTRL/STAT read and the pushed-compare
   * write succeeded and the compare outcome was ERROR_MEMORY: the DP
   * accesses never report it, and the restore at `end` keeps it.
   */
  lemma VerifyBlockMemory(c: Config, o: Oracle, s: St, adr: Addr, bs: seq<bv8>)
    ensures var x := VerifyBlock(c, o, s, adr, bs);
      x.status == RDDI_DAP_ERROR_MEMORY <==>
        c.handle && BlockOk(c, |bs|) &&
        var b := BlockSetup(c, o, s, adr);
        || b.status == RDDI_DAP_ERROR_MEMORY
        || (b.status == 0 &&
            var d := ReadDP(c, o, b.st, DP_CTRL_STAT);
            var w := WriteDP(c, o, d.st, DP_CTRL_STAT, CompareMode(d.value));
            var p := VerifyOutcome(c, o, Append(w.st, WriteRepeatTxn(bs)), o(|w.st.log|), CompareMode(d.value));
            d.status == 0 && w.status == 0 && p.status == RDDI_DAP_ERROR_MEMORY)
  {
    if c.handle && BlockOk(c, |bs|) {
      var b := BlockSetup(c, o, s, adr);
      if b.status == 0 {
        var d := ReadDP(c, o, b.st, DP_CTRL_STAT);
        DPRetry(c, o, b.st, RegRead(DpId(DP_CTRL_STAT)));
        if d.status == 0 {
          var w := WriteDP(c, o, d.st, DP_CTRL_STAT, CompareMode(d.value));
          DPRetry(c, o, d.st, RegWrite(DpId(DP_CTRL_STAT), CompareMode(d.value)));
          if w.status == 0 {
            var p := VerifyOutcome(c, o, Append(w.st, WriteRepeatTxn(bs)), o(|w.st.log|), CompareMode(d.value));
            VerifyOutcomeFlag(c, o, Append(w.st, WriteRepeatTxn(bs)), o(|w.st.log|), CompareMode(d.value));
            VerifyEndMemory(c, o, p);
          }
        }
      }
    }
  }

  /**
   * With a mismatch flag of 0 or -1 (all VerifyOutcome produces), the
   * restore at `end` reports ERROR_MEMORY exactly when it was pending.
   */
  lemma VerifyEndMemory(c: Config, o: Oracle, p: Pending)
    requires c.handle && (p.flag == 0 || p.flag == VERIFY_MISMATCH)
    ensures VerifyEnd(c, o, p).status == RDDI_DAP_ERROR_MEMORY <==> p.status == RDDI_DAP_ERROR_MEMORY
  {
    DPRetry(c, o, p.st, RegWrite(DpId(DP_CTRL_STAT), NoTrn(p.val)));
  }

  /**
   * The ABORT value of the sticky path of RDDI_DAP_VerifyBlock is built with
   * STICKYCMP, the CTRL/STAT bit 4; in ABORT bit 4 is ORUNERRCLR, so the
   * write clears the overrun flag and not STICKYCMP, whose clear bit
   * STKCMPCLR it leaves out.
   */
  lemma VerifyClearBits()
    ensures CLEAR_VERIFY == STKERRCLR | ORUNERRCLR | WDERRCLR
    ensures CLEAR_VERIFY & STKCMPCLR == 0
  {
  }

  /**
   * RDDI_DAP_VerifyBlock returns -1 only when the setup, the CTRL/STAT read
   * and the pushed-compare write succeeded, no error was pending at `end`,
   * and STICKYCMP was set in CTRL/STAT after the compare.
   */
  lemma VerifyMismatchOnlyOnCompare(c: Config, o: Oracle, s: St, adr: Addr, bs: seq<bv8>)
    ensures var x := VerifyBlock(c, o, s, adr, bs);
      x.status == VERIFY_MISMATCH ==>
        c.handle && BlockOk(c, |bs|) &&
        var b := BlockSetup(c, o, s, adr);
        var d := ReadDP(c, o, b.st, DP_CTRL_STAT);
        var w := WriteDP(c, o, d.st, DP_CTRL_STAT, CompareMode(d.value));
        var p := VerifyOutcome(c, o, Append(w.st, WriteRepeatTxn(bs)), o(|w.st.log|), CompareMode(d.value));
        b.status == 0 && d.status == 0 && w.status == 0 && p.status == 0 && AnySet(p.val, STICKYCMP)
  {
    var x := VerifyBlock(c, o, s, adr, bs);
    if x.status == VERIFY_MISMATCH {
      var b := BlockSetup(c, o, s, adr);
      BlockSetupCode(c, o, s, adr);
      var d := ReadDP(c, o, b.st, DP_CTRL_STAT);
      DPCode(c, o, b.st, RegRead(DpId(DP_CTRL_STAT)));
      var w := WriteDP(c, o, d.st, DP_CTRL_STAT, CompareMode(d.value));
      DPCode(c, o, d.st, RegWrite(DpId(DP_CTRL_STAT), CompareMode(d.value)));
      var r := o(|w.st.log|);
      var p := VerifyOutcome(c, o, Append(w.st, WriteRepeatTxn(bs)), r, CompareMode(d.value));
      VerifyOutcomeFlag(c, o, Append(w.st, WriteRepeatTxn(bs)), r, CompareMode(d.value));
      DPCode(c, o, p.st, RegWrite(DpId(DP_CTRL_STAT), NoTrn(p.val)));
    }
  }

  /** The block setup returns 0 or an error code of this layer. */
  lemma BlockSetupCode(c: Config, o: Oracle, s: St, adr: Addr)
    ensures Code(BlockSetup(c, o, s, adr).status)
  {
    DPCode(c, o, s, RegWrite(DpId(DP_SELECT), SelectValue(c, 0)));
    var z := BankZero(c, o, s);
    if z.status == 0 {
      var v := CswWith(z.st.sh.csw, BLOCK_CSW_MASK, BLOCK_CSW);
      APCode(c, o, z.st.(sh := z.st.sh.(csw := v)), AP_CSW, RegWrite(ApId(AP_CSW), v));
      var w := SetCsw(c, o, z.st, BLOCK_CSW_MASK, BLOCK_CSW);
      APCode(c, o, w.st, AP_TAR, RegWrite(ApId(AP_TAR), adr as bv32));
    }
  }
}
