/**
 * The session of the access-port layer: the cached AP_Bank and CSW_Val that
 * the accessors update in place, the fixed configuration, and the primitive
 * they call.  Every method is proved to do exactly what the function of the
 * same name in AccessSpec says: the return code, the new cached registers and
 * the transactions appended to the primitive's log.
 */
module Session {
  import opened DapTypes
  import opened Lanes
  import opened Primitive
  import A = AccessSpec

  class Dap {
    const cfg: Config
    const probe: Probe
    /** AP_Bank: the AP bank last written to SELECT. */
    var apBank: bv32
    /** CSW_Val: the value CSW is believed to hold. */
    var csw: bv32

    /** The state AccessSpec speaks about. */
    function State(): A.St
      reads this, probe
    {
      A.St(Shadow(apBank, csw), probe.log)
    }

    constructor (cfg: Config, probe: Probe, sh: Shadow)
      ensures this.cfg == cfg && this.probe == probe
      ensures apBank == sh.apBank && csw == sh.csw
    {
      this.cfg := cfg;
      this.probe := probe;
      apBank := sh.apBank;
      csw := sh.csw;
    }

    // -------------------------------------------------------------------
    // Fault handling

    /** RDDI_DAP_Abort */
    method Abort(v: bv32) returns (status: int)
      modifies probe
      ensures var x := A.Abort(cfg, probe.respond, old(State()), v);
        status == x.status && State() == x.st
    {
      if !cfg.handle {
        return RDDI_DAP_ERROR_INTERNAL;
      }
      var r := probe.Call(RegWrite(DAP_REG_DP_ABORT, v));
      status := if r.status != 0 then RDDI_DAP_ERROR_DEBUG else 0;
    }

    /** RDDI_DAP_CheckStatus */
    method CheckStatus(st: int) returns (status: int)
      modifies probe
      ensures var x := A.CheckStatus(cfg, probe.respond, old(State()), st);
        status == x.status && State() == x.st
    {
      if st == RDDI_DAP_OPERATION_TIMEOUT {
        status := Abort(DAPABORT);
        if status != 0 {
          return;
        }
        return RDDI_DAP_ERROR_MEMORY;
      }
      if st == RDDI_DAP_DP_STICKY_ERR {
        status := Abort(A.CLEAR_STICKY);
        if status != 0 {
          return;
        }
        return RDDI_DAP_ERROR_MEMORY;
      }
      if st != 0 {
        return RDDI_DAP_ERROR;
      }
      return 0;
    }

    /** Issue `t`, returning word `i` of the reply, then CheckStatus. */
    method Checked(t: Txn, i: nat) returns (status: int, val: bv32)
      modifies probe
      ensures var x := A.Checked(cfg, probe.respond, old(State()), t, i);
        status == x.status && State() == x.st && val == x.value
    {
      var r := probe.Call(t);
      val := Word(r, i);
      status := CheckStatus(r.status);
    }

    // -------------------------------------------------------------------
    // DP and AP registers

    /** The retry loop shared by RDDI_DAP_ReadDP and RDDI_DAP_WriteDP. */
    method DPAccess(t: Txn) returns (status: int, val: bv32)
      modifies probe
      ensures var x := A.DPAccess(cfg, probe.respond, old(State()), t);
        status == x.status && State() == x.st && val == x.value
    {
      if !cfg.handle {
        return RDDI_DAP_ERROR_INTERNAL, 0;
      }
      ghost var s0 := State();
      var abort := false;
      while true
        invariant A.DPTry(cfg, probe.respond, State(), t, abort) == A.DPTry(cfg, probe.respond, s0, t, false)
        decreases if abort then 0 else 1
      {
        status, val := Checked(t, 0);
        if status == RDDI_DAP_ERROR_MEMORY {
          if abort {
            return RDDI_DAP_ERROR_DEBUG, val;
          }
          abort := true;
        } else {
          return;
        }
      }
    }

    /** RDDI_DAP_ReadDP */
    method ReadDP(adr: bv8) returns (status: int, val: bv32)
      modifies probe
      ensures var x := A.ReadDP(cfg, probe.respond, old(State()), adr);
        status == x.status && State() == x.st && val == x.value
    {
      status, val := DPAccess(RegRead(DpId(adr)));
    }

    /** RDDI_DAP_WriteDP */
    method WriteDP(adr: bv8, v: bv32) returns (status: int)
      modifies probe
      ensures var x := A.WriteDP(cfg, probe.respond, old(State()), adr, v);
        status == x.status && State() == x.st
    {
      var ignored;
      status, ignored := DPAccess(RegWrite(DpId(adr), v));
    }

    /** The bank handling shared by RDDI_DAP_ReadAP and RDDI_DAP_WriteAP. */
    method APAccess(adr: bv8, t: Txn) returns (status: int, val: bv32)
      modifies this, probe
      ensures var x := A.APAccess(cfg, probe.respond, old(State()), adr, t);
        status == x.status && State() == x.st && val == x.value
    {
      if !cfg.handle {
        return RDDI_DAP_ERROR_INTERNAL, 0;
      }
      ghost var s0 := State();
      if A.BankMiss(adr, apBank) {
        status := WriteDP(DP_SELECT, A.SelectValue(cfg, Bank(adr)));
        if status != 0 {
          assert A.APAccess(cfg, probe.respond, s0, adr, t) == A.Out(status, State(), 0);
          return status, 0;
        }
        apBank := Bank(adr);
        status, val := Checked(t, 0);
        assert A.APAccess(cfg, probe.respond, s0, adr, t) == A.Out(status, State(), val);
      } else {
        status, val := Checked(t, 0);
        assert A.APAccess(cfg, probe.respond, s0, adr, t) == A.Out(status, State(), val);
      }
    }

    /** RDDI_DAP_ReadAP */
    method ReadAP(adr: bv8) returns (status: int, val: bv32)
      modifies this, probe
      ensures var x := A.ReadAP(cfg, probe.respond, old(State()), adr);
        status == x.status && State() == x.st && val == x.value
    {
      status, val := APAccess(adr, RegRead(ApId(adr)));
    }

    /** RDDI_DAP_WriteAP */
    method WriteAP(adr: bv8, v: bv32) returns (status: int)
      modifies this, probe
      ensures var x := A.WriteAP(cfg, probe.respond, old(State()), adr, v);
        status == x.status && State() == x.st
    {
      var ignored;
      status, ignored := APAccess(adr, RegWrite(ApId(adr), v));
    }

    // -------------------------------------------------------------------
    // Memory access through TAR and DRW

    method BankZero() returns (status: int)
      modifies this, probe
      ensures var x := A.BankZero(cfg, probe.respond, old(State()));
        status == x.status && State() == x.st
    {
      if apBank != 0 {
        status := WriteDP(DP_SELECT, A.SelectValue(cfg, 0));
        if status != 0 {
          return;
        }
        apBank := 0;
      }
      return 0;
    }

    method SetCsw(mask: bv32, want: bv32) returns (status: int)
      modifies this, probe
      ensures var x := A.SetCsw(cfg, probe.respond, old(State()), mask, want);
        status == x.status && State() == x.st
    {
      ghost var s0 := State();
      if !A.CswHas(csw, mask, want) {
        csw := A.CswWith(csw, mask, want);
        status := WriteAP(AP_CSW, csw);
        assert A.SetCsw(cfg, probe.respond, s0, mask, want) == A.Out(status, State(), 0);
        return;
      }
      assert A.SetCsw(cfg, probe.respond, s0, mask, want) == A.Out(0, s0, 0);
      return 0;
    }

    /** RDDI_DAP_ReadData */
    method ReadData(adr: Addr) returns (status: int, val: bv32)
      modifies probe
      ensures var x := A.ReadData(cfg, probe.respond, old(State()), adr);
        status == x.status && State() == x.st && val == x.value
    {
      if !cfg.handle {
        return RDDI_DAP_ERROR_INTERNAL, 0;
      }
      status, val := Checked(A.ReadDataTxn(adr), 1);
    }

    /** RDDI_DAP_WriteData */
    method WriteData(adr: Addr, v: bv32) returns (status: int)
      modifies probe
      ensures var x := A.WriteData(cfg, probe.respond, old(State()), adr, v);
        status == x.status && State() == x.st
    {
      if !cfg.handle {
        return RDDI_DAP_ERROR_INTERNAL;
      }
      var ignored;
      status, ignored := Checked(A.WriteDataTxn(adr, v), 0);
    }

    /** The part RDDI_DAP_ReadD32/16/8 share: bank 0, CSW size, ReadData. */
    method SizedRead(size: bv32, adr: Addr) returns (status: int, val: bv32)
      modifies this, probe
      ensures var x := A.SizedRead(cfg, probe.respond, old(State()), size, adr);
        status == x.status && State() == x.st && val == x.value
    {
      val := 0;
      status := BankZero();
      if status != 0 {
        return;
      }
      status := SetCsw(CSW_SIZE, size);
      if status != 0 {
        return;
      }
      status, val := ReadData(adr);
    }

    /** The part RDDI_DAP_WriteD32/16/8 share: bank 0, CSW size, WriteData. */
    method SizedWrite(size: bv32, adr: Addr, word: bv32) returns (status: int)
      modifies this, probe
      ensures var x := A.SizedWrite(cfg, probe.respond, old(State()), size, adr, word);
        status == x.status && State() == x.st
    {
      status := BankZero();
      if status != 0 {
        return;
      }
      status := SetCsw(CSW_SIZE, size);
      if status != 0 {
        return;
      }
      status := WriteData(adr, word);
    }

    /** RDDI_DAP_ReadD32 */
    method ReadD32(adr: Addr) returns (status: int, val: bv32)
      modifies this, probe
      ensures var x := A.ReadD32(cfg, probe.respond, old(State()), adr);
        status == x.status && State() == x.st && val == x.value
    {
      status, val := SizedRead(CSW_SIZE32, adr);
    }

    /** RDDI_DAP_ReadD16 */
    method ReadD16(adr: Addr) returns (status: int, val: bv16)
      modifies this, probe
      ensures var x := A.SizedRead(cfg, probe.respond, old(State()), CSW_SIZE16, adr);
        status == x.status && State() == x.st && val == ExtractHalf(x.value, adr)
    {
      var v;
      status, v := SizedRead(CSW_SIZE16, adr);
      val := ExtractHalf(v, adr);
    }

    /** RDDI_DAP_ReadD8 */
    method ReadD8(adr: Addr) returns (status: int, val: bv8)
      modifies this, probe
      ensures var x := A.SizedRead(cfg, probe.respond, old(State()), CSW_SIZE8, adr);
        status == x.status && State() == x.st && val == ExtractByte(x.value, adr)
    {
      var v;
      status, v := SizedRead(CSW_SIZE8, adr);
      val := ExtractByte(v, adr);
    }

    /** RDDI_DAP_WriteD32 */
    method WriteD32(adr: Addr, v: bv32) returns (status: int)
      modifies this, probe
      ensures var x := A.WriteD32(cfg, probe.respond, old(State()), adr, v);
        status == x.status && State() == x.st
    {
      status := SizedWrite(CSW_SIZE32, adr, v);
    }

    /** RDDI_DAP_WriteD16 */
    method WriteD16(adr: Addr, v: bv16) returns (status: int)
      modifies this, probe
      ensures var x := A.WriteD16(cfg, probe.respond, old(State()), adr, v);
        status == x.status && State() == x.st
    {
      status := SizedWrite(CSW_SIZE16, adr, PlaceHalf(v, adr));
    }

    /** RDDI_DAP_WriteD8 */
    method WriteD8(adr: Addr, v: bv8) returns (status: int)
      modifies this, probe
      ensures var x := A.WriteD8(cfg, probe.respond, old(State()), adr, v);
        status == x.status && State() == x.st
    {
      status := SizedWrite(CSW_SIZE8, adr, PlaceByte(v, adr));
    }

    // -------------------------------------------------------------------
    // Sticky errors

    /** RDDI_DAP_CheckStickyError */
    method CheckStickyError(stat: bv32) returns (status: int)
      modifies probe
      ensures var x := A.CheckSticky(cfg, probe.respond, old(State()), stat);
        status == x.status && State() == x.st
    {
      ghost var s0 := State();
      if cfg.swPort {
        // Serial Wire
        if AnySet(stat, A.ERROR_FLAGS) {
          status := Abort(A.CLEAR_STICKY);
          if status == 0 {
            status := RDDI_DAP_ERROR_MEMORY;
          }
          assert A.CheckSticky(cfg, probe.respond, s0, stat) == A.Out(status, State(), 0);
          return;
        }
      } else {
        // JTAG
        if AnySet(stat, STICKYERR) {
          status := WriteDP(DP_CTRL_STAT, stat);
          if status == 0 {
            status := RDDI_DAP_ERROR_MEMORY;
          }
          assert A.CheckSticky(cfg, probe.respond, s0, stat) == A.Out(status, State(), 0);
          return;
        }
      }
      assert A.CheckSticky(cfg, probe.respond, s0, stat) == A.Out(0, s0, 0);
      return 0;
    }

    /** RDDI_DAP_StickyError */
    method StickyError() returns (status: int)
      modifies probe
      ensures var x := A.Sticky(cfg, probe.respond, old(State()));
        status == x.status && State() == x.st
    {
      var stat;
      status, stat := ReadDP(DP_CTRL_STAT);
      if status != 0 {
        return;
      }
      status := CheckStickyError(stat);
    }

    // -------------------------------------------------------------------
    // Block transfers

    /** Bank 0, 32-bit single-increment CSW, TAR = adr. */
    method BlockSetup(adr: Addr) returns (status: int)
      modifies this, probe
      ensures var x := A.BlockSetup(cfg, probe.respond, old(State()), adr);
        status == x.status && State() == x.st
    {
      status := BankZero();
      if status != 0 {
        return;
      }
      status := SetCsw(A.BLOCK_CSW_MASK, A.BLOCK_CSW);
      if status != 0 {
        return;
      }
      status := WriteAP(AP_TAR, adr as bv32);
    }

    /** RDDI_DAP_ReadBlock: the DWORDs read land in `buf` from `pos` on. */
    method ReadBlock(adr: Addr, buf: array<bv8>, pos: nat, n: nat) returns (status: int)
      requires pos + n <= buf.Length
      modifies this, probe, buf
      ensures var x := A.ReadBlock(cfg, probe.respond, old(State()), adr, n);
        status == x.status && State() == x.st &&
        pos + |WordsBytes(x.words)| <= buf.Length &&
        buf[..] == Splice(old(buf[..]), pos, WordsBytes(x.words))
    {
      if !cfg.handle || n == 0 || n % 4 != 0 || n > cfg.rwPage {
        return RDDI_DAP_ERROR_INTERNAL;
      }
      status := BlockSetup(adr);
      if status != 0 {
        return;
      }
      var r := probe.Call(ReadRepeat(n / 4, DAP_AP_REG_DRW));
      StoreBytes(buf, pos, WordsBytes(A.Words(r, n / 4)));
      status := CheckStatus(r.status);
      if status != 0 {
        return;
      }
      status := StickyError();
    }

    /** RDDI_DAP_WriteBlock of the bytes `bs` (the caller's buffer run) at `adr`. */
    method WriteBlock(adr: Addr, bs: seq<bv8>) returns (status: int)
      modifies this, probe
      ensures var x := A.WriteBlock(cfg, probe.respond, old(State()), adr, bs);
        status == x.status && State() == x.st
    {
      if !cfg.handle || |bs| == 0 || |bs| % 4 != 0 || |bs| > cfg.rwPage {
        return RDDI_DAP_ERROR_INTERNAL;
      }
      ghost var s0 := State();
      status := BlockSetup(adr);
      if status != 0 {
        return;
      }
      var r := probe.Call(A.WriteRepeatTxn(bs));
      status := CheckStatus(r.status);
      if status != 0 {
        assert A.WriteBlock(cfg, probe.respond, s0, adr, bs) == A.Out(status, State(), 0);
        return;
      }
      status := StickyError();
    }

    /** RDDI_DAP_VerifyBlock of the bytes `bs` at `adr`; -1 reports a mismatch. */
    method VerifyBlock(adr: Addr, bs: seq<bv8>) returns (status: int)
      modifies this, probe
      ensures var x := A.VerifyBlock(cfg, probe.respond, old(State()), adr, bs);
        status == x.status && State() == x.st
    {
      if !cfg.handle || |bs| == 0 || |bs| % 4 != 0 || |bs| > cfg.rwPage {
        return RDDI_DAP_ERROR_INTERNAL;
      }
      ghost var s0 := State();
      status := BlockSetup(adr);
      if status != 0 {
        return;
      }
      var val;
      // Configure pushed compare
      status, val := ReadDP(DP_CTRL_STAT);
      if status != 0 {
        return;
      }
      val := A.CompareMode(val);
      status := WriteDP(DP_CTRL_STAT, val);
      if status != 0 {
        return;
      }
      var r := probe.Call(A.WriteRepeatTxn(bs));
      var flag;
      status, flag, val := Outcome(r, val);
      status := VerifyEnd(status, flag, val);
    }

    /** The `end` label of RDDI_DAP_VerifyBlock. */
    method VerifyEnd(pending: int, flag: int, val: bv32) returns (status: int)
      modifies probe
      ensures var x := A.VerifyEnd(cfg, probe.respond, A.Pending(pending, flag, old(State()), val));
        status == x.status && State() == x.st
    {
      var v := A.NoTrn(val);
      if pending != 0 {
        var ignored := WriteDP(DP_CTRL_STAT, v);
        return pending;
      } else {
        status := WriteDP(DP_CTRL_STAT, v);
        if status != 0 {
          return;
        }
      }
      return flag;
    }

    /** The part of RDDI_DAP_VerifyBlock between the repeated write and `end`. */
    method Outcome(r: Reply, val0: bv32) returns (status: int, flag: int, val: bv32)
      modifies probe
      ensures var p := A.VerifyOutcome(cfg, probe.respond, old(State()), r, val0);
        status == p.status && flag == p.flag && val == p.val && State() == p.st
    {
      val, flag := val0, 0;
      if r.status == RDDI_DAP_OPERATION_TIMEOUT {
        status := Abort(DAPABORT);
        if status != 0 {
          return;
        }
        status := RDDI_DAP_ERROR_MEMORY;
        return;
      }
      if r.status == RDDI_DAP_DP_STICKY_ERR {
        status, val := ReadDP(DP_CTRL_STAT);
        if status != 0 {
          return;
        }
        status := Abort(A.CLEAR_VERIFY);
        if status != 0 {
          return;
        }
        if AnySet(val, A.ERROR_FLAGS) {
          status := RDDI_DAP_ERROR_MEMORY;
        }
        if AnySet(val, STICKYCMP) {
          flag := VERIFY_MISMATCH;
        }
        return;
      }
      if r.status == RDDI_SUCCESS {
        status, val := ReadDP(DP_CTRL_STAT);
        if status != 0 {
          return;
        }
        if AnySet(val, STICKYERR) {
          status := RDDI_DAP_ERROR_MEMORY;
        }
        if AnySet(val, STICKYCMP) {
          flag := VERIFY_MISMATCH;
        }
      } else {
        status := RDDI_DAP_ERROR;
      }
    }

    /** Copy `bytes` into `buf` from `pos` on. */
    static method StoreBytes(buf: array<bv8>, pos: nat, bytes: seq<bv8>)
      requires pos + |bytes| <= buf.Length
      modifies buf
      ensures buf[..] == Splice(old(buf[..]), pos, bytes)
    {
      for i := 0 to |bytes|
        invariant forall j :: 0 <= j < buf.Length ==>
          buf[j] == if pos <= j < pos + i then bytes[j - pos] else old(buf[j])
      {
        buf[pos + i] := bytes[i];
      }
    }
  }
}
