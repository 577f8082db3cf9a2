/**
 * RDDI_DAP_GetARMRegs, RDDI_DAP_SetARMRegs, RDDI_DAP_SysCallExec and
 * RDDI_DAP_SysCallRes on a session object.  The regID/regData lists are the
 * fixed-size local arrays of the source, filled by index-advancing loops, and
 * the caller's register blocks RgARMCM and RgARMFPU are arrays of DWORDs
 * (`null` for a block the caller did not pass).  Each method is proved to do what the function
 * of the same name in RegSpec says.
 */
module RegFile {
  import opened DapTypes
  import opened Session
  import A = AccessSpec
  import R = RegSpec

  /** A register block as RegSpec sees it. */
  function Contents(a: array?<bv32>): R.Option<seq<bv32>>
    reads a
  {
    if a == null then R.None else R.Some(a[..])
  }

  /** `a[i] = x; a[i+1] = y; a[i+2] = z;` */
  method Put3(a: array<bv32>, i: nat, x: bv32, y: bv32, z: bv32)
    requires i + 3 <= a.Length
    modifies a
    ensures a[..i + 3] == old(a[..i]) + [x, y, z]
    ensures forall j :: i + 3 <= j < a.Length ==> a[j] == old(a[j])
  {
    a[i], a[i + 1], a[i + 2] := x, y, z;
    assert a[..i + 3] == a[..i] + [x, y, z];
  }

  /** `a[i] = x; a[i+1] = y;`, leaving `a[i+2]` as it was. */
  method Put2(a: array<bv32>, i: nat, x: bv32, y: bv32)
    requires i + 3 <= a.Length
    modifies a
    ensures a[..i + 3] == old(a[..i]) + [x, y, old(a[i + 2])]
    ensures forall j :: i + 3 <= j < a.Length ==> a[j] == old(a[j])
  {
    a[i], a[i + 1] := x, y;
    assert a[..i + 3] == a[..i] + [x, y, a[i + 2]];
  }

  /** rddi_DAP_RegAccessBlock of one list, followed by RDDI_DAP_CheckStatus. */
  method Issue(d: Dap, ids: seq<bv32>, data: seq<bv32>) returns (status: int, r: Reply)
    modifies d.probe
    ensures var x := R.Issue(d.cfg, d.probe.respond, old(d.State()), R.Batch(ids, data));
      status == x.status && d.State() == x.st && r == x.reply
  {
    r := d.probe.Call(AccessBlock(ids, data));
    status := d.CheckStatus(r.status);
  }

  /** The setup batch shared by the four operations; AP_Bank = 0x10 after it. */
  method Setup(d: Dap) returns (status: int)
    modifies d, d.probe
    ensures var x := R.Setup(d.cfg, d.probe.respond, old(d.State()));
      status == x.status && d.State() == x.st
  {
    var b := R.SetupBatch(d.cfg);
    var r;
    status, r := Issue(d, b.ids, b.data);
    if status != 0 {
      return;
    }
    d.apBank := R.REG_BANK;
  }

  /** RDDI_DAP_GetARMRegs: the registers are stored only once the sticky check has passed. */
  method GetARMRegs(d: Dap, regs: array?<bv32>, rfpu: array?<bv32>, mask: bv64) returns (status: int)
    requires regs != null ==> regs.Length >= R.CORE_WORDS
    requires rfpu != null ==> rfpu.Length >= R.FPU_WORDS
    requires regs != null && rfpu != null ==> regs != rfpu
    modifies d, d.probe, regs, rfpu
    ensures var g := R.Get(d.cfg, d.probe.respond, old(d.State()), mask);
      && status == g.status && d.State() == g.st
      && (regs != null ==>
            regs[..] == if status == 0 then R.CoreStore(old(regs[..]), mask, g.reply, 64) else old(regs[..]))
      && (rfpu != null ==>
            rfpu[..] == if status == 0 then R.FpuStore(old(rfpu[..]), mask, g.reply, 64) else old(rfpu[..]))
  {
    if !d.cfg.handle {
      return RDDI_DAP_ERROR_INTERNAL;
    }
    if mask == 0 {
      return RDDI_DAP_ERROR_INTERNAL;
    }
    status := Setup(d);
    if status != 0 {
      return;
    }
    var ids, data := GetList(mask);
    var r;
    status, r := Issue(d, ids, data);
    if status != 0 {
      return;
    }
    status := d.StickyError();
    if status != 0 {
      return;
    }
    Store(regs, rfpu, mask, r);
    return 0;
  }

  /** The prepare loop of RDDI_DAP_GetARMRegs; regData of the DCRDR reads is never set. */
  method GetList(mask: bv64) returns (ids: seq<bv32>, data: seq<bv32>)
    ensures R.Batch(ids, data) == R.GetPrep(mask, 64)
  {
    var regID := new bv32[3 * 64](_ => 0);
    var regData := new bv32[3 * 64](_ => 0);
    var i := 0;
    for n := 0 to 64
      invariant i == 3 * R.SelCount(mask, n)
      invariant R.Batch(regID[..i], regData[..i]) == R.GetPrep(mask, n)
      invariant forall j :: i <= j < regData.Length ==> regData[j] == 0
    {
      i := GetStep(regID, regData, mask, n, i);
    }
    ids, data := regID[..i], regData[..i];
  }

  /** One pass of the prepare loop of RDDI_DAP_GetARMRegs: mask bit `n`. */
  method GetStep(regID: array<bv32>, regData: array<bv32>, mask: bv64, n: nat, i: nat) returns (i': nat)
    requires n < 64 && regID.Length == regData.Length == 3 * 64 && regID != regData
    requires i == 3 * R.SelCount(mask, n) && R.Batch(regID[..i], regData[..i]) == R.GetPrep(mask, n)
    requires forall j :: i <= j < regData.Length ==> regData[j] == 0
    modifies regID, regData
    ensures i' == 3 * R.SelCount(mask, n + 1) && R.Batch(regID[..i'], regData[..i']) == R.GetPrep(mask, n + 1)
    ensures forall j :: i' <= j < regData.Length ==> regData[j] == 0
  {
    i' := i;
    if R.Bit(mask, n) {
      if !R.Selectable(n) {
        return;
      }
      GetPut(regID, regData, i, n);
      i' := i + 3;
    }
  }

  /** The three entries of a register read; the data word of the DCRDR read stays unset. */
  method GetPut(regID: array<bv32>, regData: array<bv32>, i: nat, n: nat)
    requires R.Selectable(n) && i + 3 <= regID.Length == regData.Length && regID != regData
    requires regData[i + 2] == 0
    modifies regID, regData
    ensures R.Batch(regID[..i + 3], regData[..i + 3]) == R.Join(R.Batch(old(regID[..i]), old(regData[..i])), R.GetEntry(n))
    ensures forall j :: i + 3 <= j < regData.Length ==> regData[j] == old(regData[j])
  {
    var m := R.Selector(n);
    Put3(regID, i, DAP_REG_AP_0x4, R.WAIT_READY, R.READ_DCRDR);
    Put2(regData, i, m, R.S_REGRDY);
  }

  /** The store loop of RDDI_DAP_GetARMRegs: regData[i + 2] for every set bit, in mask order. */
  method Store(regs: array?<bv32>, rfpu: array?<bv32>, mask: bv64, r: Reply)
    requires regs != null ==> regs.Length >= R.CORE_WORDS
    requires rfpu != null ==> rfpu.Length >= R.FPU_WORDS
    requires regs != null && rfpu != null ==> regs != rfpu
    modifies regs, rfpu
    ensures regs != null ==> regs[..] == R.CoreStore(old(regs[..]), mask, r, 64)
    ensures rfpu != null ==> rfpu[..] == R.FpuStore(old(rfpu[..]), mask, r, 64)
  {
    ghost var core0 := if regs != null then regs[..] else [];
    ghost var fpu0 := if rfpu != null then rfpu[..] else [];
    var i := 0;
    for n := 0 to 64
      invariant i == 3 * R.SetCount(mask, n)
      invariant regs != null ==> regs[..] == R.CoreStore(core0, mask, r, n)
      invariant rfpu != null ==> rfpu[..] == R.FpuStore(fpu0, mask, r, n)
    {
      if R.Bit(mask, n) {
        var val := Word(r, i + 2);
        i := i + 3;
        StoreOne(regs, rfpu, mask, r, n, val, core0, fpu0);
      } else {
        if regs != null {
          R.CoreStoreStep(core0, mask, r, n);
        }
        if rfpu != null {
          R.FpuStoreStep(fpu0, mask, r, n);
        }
      }
    }
  }

  /** The store of one set mask bit's value into its register, if its block was passed. */
  method StoreOne(regs: array?<bv32>, rfpu: array?<bv32>, mask: bv64, r: Reply, n: nat, val: bv32,
                  ghost core0: seq<bv32>, ghost fpu0: seq<bv32>)
    requires n < 64 && R.Bit(mask, n) && val == Word(r, R.StoreIndex(mask, n))
    requires regs != null ==> |core0| == regs.Length >= R.CORE_WORDS && regs[..] == R.CoreStore(core0, mask, r, n)
    requires rfpu != null ==> |fpu0| == rfpu.Length >= R.FPU_WORDS && rfpu[..] == R.FpuStore(fpu0, mask, r, n)
    requires regs != null && rfpu != null ==> regs != rfpu
    modifies regs, rfpu
    ensures regs != null ==> regs[..] == R.CoreStore(core0, mask, r, n + 1)
    ensures rfpu != null ==> rfpu[..] == R.FpuStore(fpu0, mask, r, n + 1)
  {
    if regs != null {
      R.CoreStoreStep(core0, mask, r, n);
    }
    if rfpu != null {
      R.FpuStoreStep(fpu0, mask, r, n);
    }
    if n < 21 && regs != null {
      regs[n] := val;
    } else if n >= 32 && rfpu != null {
      rfpu[n - 32] := val;
    } else if n == 31 && rfpu != null {
      rfpu[R.FPSCR_INDEX] := val;
    }
  }

  /** RDDI_DAP_SetARMRegs. */
  method SetARMRegs(d: Dap, regs: array?<bv32>, rfpu: array?<bv32>, mask: bv64) returns (status: int)
    requires regs != null ==> regs.Length >= R.CORE_WORDS
    requires rfpu != null ==> rfpu.Length >= R.FPU_WORDS
    modifies d, d.probe
    ensures var x := R.Set(d.cfg, d.probe.respond, old(d.State()), mask, Contents(regs), Contents(rfpu));
      status == x.status && d.State() == x.st
  {
    if !d.cfg.handle {
      return RDDI_DAP_ERROR_INTERNAL;
    }
    if mask == 0 {
      return RDDI_DAP_ERROR_INTERNAL;
    }
    status := Setup(d);
    if status != 0 {
      return;
    }
    var ids, data := SetList(regs, rfpu, mask);
    var r;
    status, r := Issue(d, ids, data);
    if status != 0 {
      return;
    }
    status := d.StickyError();
    if status != 0 {
      return;
    }
    return 0;
  }

  /** The prepare loop of RDDI_DAP_SetARMRegs. */
  method SetList(regs: array?<bv32>, rfpu: array?<bv32>, mask: bv64) returns (ids: seq<bv32>, data: seq<bv32>)
    requires regs != null ==> regs.Length >= R.CORE_WORDS
    requires rfpu != null ==> rfpu.Length >= R.FPU_WORDS
    ensures R.Batch(ids, data) == R.SetPrep(mask, Contents(regs), Contents(rfpu), 64)
  {
    ghost var core, fpu := Contents(regs), Contents(rfpu);
    var regID := new bv32[3 * 64];
    var regData := new bv32[3 * 64];
    var i := 0;
    for n := 0 to 64
      invariant i == 3 * R.WriteCount(mask, core, fpu, n) <= 3 * n
      invariant R.Batch(regID[..i], regData[..i]) == R.SetPrep(mask, core, fpu, n)
      invariant Contents(regs) == core && Contents(rfpu) == fpu
    {
      i := SetStep(regs, rfpu, mask, n, regID, regData, i, core, fpu);
    }
    ids, data := regID[..i], regData[..i];
  }

  /** One pass of the prepare loop of RDDI_DAP_SetARMRegs, for mask bit n. */
  method SetStep(regs: array?<bv32>, rfpu: array?<bv32>, mask: bv64, n: nat, regID: array<bv32>, regData: array<bv32>, i: nat,
                 ghost core: R.Option<seq<bv32>>, ghost fpu: R.Option<seq<bv32>>)
    returns (i': nat)
    requires n < 64 && regID.Length == regData.Length == 3 * 64 && regID != regData
    requires core == Contents(regs) && fpu == Contents(rfpu) && R.Sizes(core, fpu)
    requires i == 3 * R.WriteCount(mask, core, fpu, n) <= 3 * n
    requires R.Batch(regID[..i], regData[..i]) == R.SetPrep(mask, core, fpu, n)
    modifies regID, regData
    ensures i' == 3 * R.WriteCount(mask, core, fpu, n + 1)
    ensures R.Batch(regID[..i'], regData[..i']) == R.SetPrep(mask, core, fpu, n + 1)
  {
    R.SetPrepStep(mask, core, fpu, n);
    i' := i;
    if R.Bit(mask, n) {
      var written, val := Load(regs, rfpu, n);
      if !written {
        return;
      }
      SetPut(regID, regData, i, n, val);
      i' := i + 3;
    }
  }

  /** The three entries of a register write. */
  method SetPut(regID: array<bv32>, regData: array<bv32>, i: nat, n: nat, val: bv32)
    requires R.Selectable(n) && i + 3 <= regID.Length == regData.Length && regID != regData
    modifies regID, regData
    ensures R.Batch(regID[..i + 3], regData[..i + 3]) == R.Join(R.Batch(old(regID[..i]), old(regData[..i])), R.SetEntry(n, val))
  {
    var m := R.REG_WRITE | R.Selector(n);
    Put3(regID, i, DAP_REG_AP_0x8, DAP_REG_AP_0x4, R.WAIT_READY);
    Put3(regData, i, val, R.REG_WRITE | m, R.S_REGRDY);
  }

  /** The register of mask bit n, when its block was passed. */
  method Load(regs: array?<bv32>, rfpu: array?<bv32>, n: nat) returns (written: bool, val: bv32)
    requires n < 64
    requires regs != null ==> regs.Length >= R.CORE_WORDS
    requires rfpu != null ==> rfpu.Length >= R.FPU_WORDS
    ensures written == ((n < 21 && regs != null) || (n >= 32 && rfpu != null) || (n == 31 && rfpu != null))
    ensures written ==> R.Selectable(n) && val == R.Value(Contents(regs), Contents(rfpu), n)
  {
    written, val := true, 0;
    if n < 21 && regs != null {
      val := regs[n];
    } else if n >= 32 && rfpu != null {
      val := rfpu[n - 32];
    } else if n == 31 && rfpu != null {
      val := rfpu[R.FPSCR_INDEX];
    } else {
      written := false;
    }
  }

  /** RDDI_DAP_SysCallExec: load the call registers, set C_DEBUGEN, check CTRL/STAT. */
  method SysCallExec(d: Dap, regs: array<bv32>) returns (status: int)
    requires regs.Length >= R.CALL_REGS
    modifies d, d.probe
    ensures var x := R.CallExec(d.cfg, d.probe.respond, old(d.State()), regs[..]);
      status == x.status && d.State() == x.st
  {
    if !d.cfg.handle {
      return RDDI_DAP_ERROR_INTERNAL;
    }
    ghost var s0 := d.State();
    ghost var b := R.CallBatch(regs[..]);
    status := Setup(d);
    if status != 0 {
      return;
    }
    ghost var s1 := d.State();
    var ids, data, i := CallList(regs);
    var r;
    status, r := Issue(d, ids, data);
    ghost var x := R.Issue(d.cfg, d.probe.respond, s1, b);
    assert status == x.status && d.State() == x.st && r == x.reply;
    if status != 0 {
      return;
    }
    assert i == |b.ids| - 1;
    status := d.CheckStickyError(Word(r, i));
  }

  /** The prepare loop of RDDI_DAP_SysCallExec and its two closing entries; `i` indexes the last. */
  method CallList(regs: array<bv32>) returns (ids: seq<bv32>, data: seq<bv32>, i: nat)
    requires regs.Length >= R.CALL_REGS
    ensures R.Batch(ids, data) == R.CallBatch(regs[..])
    ensures i + 1 == |ids|
  {
    ghost var rs := regs[..];
    var regID := new bv32[3 * 16](_ => 0);
    var regData := new bv32[3 * 16](_ => 0);
    i := 0;
    for n := 0 to R.CALL_REGS
      invariant i == 3 * R.SetCount(R.CALL_MASK, n) <= 27
      invariant R.Batch(regID[..i], regData[..i]) == R.CallPrep(rs, n)
      invariant forall j :: i <= j < regData.Length ==> regData[j] == 0
    {
      i := CallStep(regID, regData, rs, n, i, regs[n]);
    }
    CallClose(regID, regData, i);
    i := i + 1;
    ids, data := regID[..i + 1], regData[..i + 1];
  }

  /** One pass of the prepare loop of RDDI_DAP_SysCallExec: register `n`. */
  method CallStep(regID: array<bv32>, regData: array<bv32>, ghost rs: seq<bv32>, n: nat, i: nat, val: bv32) returns (i': nat)
    requires n < R.CALL_REGS <= |rs| && val == rs[n]
    requires regID.Length == regData.Length == 3 * 16 && regID != regData
    requires i == 3 * R.SetCount(R.CALL_MASK, n) && R.Batch(regID[..i], regData[..i]) == R.CallPrep(rs, n)
    requires forall j :: i <= j < regData.Length ==> regData[j] == 0
    modifies regID, regData
    ensures i' == 3 * R.SetCount(R.CALL_MASK, n + 1) <= 27 && R.Batch(regID[..i'], regData[..i']) == R.CallPrep(rs, n + 1)
    ensures forall j :: i' <= j < regData.Length ==> regData[j] == 0
  {
    R.SetCountMono(R.CALL_MASK, n + 1, R.CALL_REGS);
    R.CallCount();
    i' := i;
    if R.Bit(R.CALL_MASK, n) {
      CallPut(regID, regData, i, n, val);
      i' := i + 3;
    }
  }

  /** The three entries of one register of a system call. */
  method CallPut(regID: array<bv32>, regData: array<bv32>, i: nat, n: nat, val: bv32)
    requires n < R.CALL_REGS && i + 3 <= regID.Length == regData.Length && regID != regData
    modifies regID, regData
    ensures R.Batch(regID[..i + 3], regData[..i + 3]) == R.Join(R.Batch(old(regID[..i]), old(regData[..i])), R.CallEntry(n, val))
    ensures forall j :: i + 3 <= j < regData.Length ==> regData[j] == old(regData[j])
  {
    Put3(regID, i, DAP_REG_AP_0x8, DAP_REG_AP_0x4, R.WAIT_READY);
    Put3(regData, i, val, R.REG_WRITE | n as bv32, R.S_REGRDY);
  }

  /** DHCSR = DBGKEY | C_DEBUGEN, then the CTRL/STAT read, whose regData is never set. */
  method CallClose(regID: array<bv32>, regData: array<bv32>, i: nat)
    requires i + 2 <= regID.Length == regData.Length && regID != regData && regData[i + 1] == 0
    modifies regID, regData
    ensures R.Batch(regID[..i + 2], regData[..i + 2]) ==
      R.Join(R.Batch(old(regID[..i]), old(regData[..i])), R.Batch([DAP_REG_AP_0x0, R.READ_CTRL_STAT], [DBGKEY | C_DEBUGEN, 0]))
  {
    regID[i] := DAP_REG_AP_0x0;
    regData[i] := DBGKEY | C_DEBUGEN;
    regID[i + 1] := R.READ_CTRL_STAT;
    assert regID[..i + 2] == regID[..i] + [DAP_REG_AP_0x0, R.READ_CTRL_STAT];
    assert regData[..i + 2] == regData[..i] + [DBGKEY | C_DEBUGEN, 0];
  }

  /** RDDI_DAP_SysCallRes: R0 of the halted core, checked against CTRL/STAT. */
  method SysCallRes(d: Dap) returns (status: int, rval: bv32)
    modifies d, d.probe
    ensures var x := R.CallResult(d.cfg, d.probe.respond, old(d.State()));
      status == x.status && d.State() == x.st && rval == x.value
  {
    rval := 0;
    if !d.cfg.handle {
      return RDDI_DAP_ERROR_INTERNAL, rval;
    }
    status := Setup(d);
    if status != 0 {
      return;
    }
    var r;
    status, r := Issue(d, R.RESULT_BATCH.ids, R.RESULT_BATCH.data);
    if status != 0 {
      return;
    }
    status := d.CheckStickyError(Word(r, 3));
    if status != 0 {
      return;
    }
    rval := Word(r, 2);
    return 0, rval;
  }
}
