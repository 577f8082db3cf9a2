/**
 * RDDI_DAP_GetARMRegs, RDDI_DAP_SetARMRegs, RDDI_DAP_SysCallExec and
 * RDDI_DAP_SysCallRes as pure functions: the regID/regData lists they hand to
 * rddi_DAP_RegAccessBlock, and what they do to the session.
 *
 * The core registers are reached through the banked data registers of the
 * MEM-AP: TAR is set to DBG_Addr (the address of DHCSR) and SELECT to bank
 * 0x10, so that AP register 0x0 is DHCSR, 0x4 is DCRSR and 0x8 is DCRDR
 * (ARMv7-M Architecture Reference Manual, section C1.6).
 *
 * The regData words after a block call are the words of the primitive's
 * reply: `Word(r, i)` is regData[i] once rddi_DAP_RegAccessBlock returns.
 */
module RegSpec {
  import opened DapTypes
  import A = AccessSpec

  datatype Option<T> = None | Some(value: T)

  /** One regID/regData list, entry by entry. */
  datatype Batch = Batch(ids: seq<bv32>, data: seq<bv32>)

  function Join(a: Batch, b: Batch): Batch {
    Batch(a.ids + b.ids, a.data + b.data)
  }

  /** Outcome of a register operation, with the reply to its main block call. */
  datatype RegOut = RegOut(status: int, st: A.St, reply: Reply)

  /** DWORDs of RgARMCM that a register number below 21 indexes. */
  const CORE_WORDS: nat := 21
  /** DWORDs of RgARMFPU: S0..S31, then FPSCR. */
  const FPU_WORDS: nat := 33
  const FPSCR_INDEX: nat := 32

  /** Match retry count of the setup batch. */
  const MATCH_RETRIES: bv32 := 100
  /** DHCSR.S_REGRDY, the flag a register transfer waits for. */
  const S_REGRDY: bv32 := 0x0001_0000
  /** DCRSR.REGWnR: the selection is a write. */
  const REG_WRITE: bv32 := 0x0001_0000
  /** The AP bank of DHCSR, DCRSR and DCRDR behind TAR = DBG_Addr. */
  const REG_BANK: bv32 := 0x10

  /** Read DHCSR until S_REGRDY is set. */
  const WAIT_READY: bv32 := DAP_REG_AP_0x0 | DAP_REG_RnW | DAP_REG_WaitForValue
  /** Read DCRDR. */
  const READ_DCRDR: bv32 := DAP_REG_AP_0x8 | DAP_REG_RnW
  /** Read CTRL/STAT. */
  const READ_CTRL_STAT: bv32 := DAP_REG_DP_0x4 | DAP_REG_RnW

  // ---------------------------------------------------------------------
  // The shared setup batch and the block call

  /** MATCH_RETRY = 100, MATCH_MASK = S_REGRDY, TAR = DBG_Addr, SELECT = AP_Sel | 0x10. */
  function SetupBatch(c: Config): Batch {
    Batch([DAP_REG_MATCH_RETRY, DAP_REG_MATCH_MASK, DAP_AP_REG_TAR, DAP_DP_REG_APSEL],
          [MATCH_RETRIES, S_REGRDY, c.dbgAddr, c.apSel | REG_BANK])
  }

  /** rddi_DAP_RegAccessBlock of the list `b`, followed by RDDI_DAP_CheckStatus. */
  function Issue(c: Config, o: Oracle, s: A.St, b: Batch): RegOut {
    var r := o(|s.log|);
    var x := A.CheckStatus(c, o, A.Append(s, AccessBlock(b.ids, b.data)), r.status);
    RegOut(x.status, x.st, r)
  }

  /** The setup batch; AP_Bank follows it only once it has succeeded. */
  function Setup(c: Config, o: Oracle, s: A.St): A.Out {
    var x := Issue(c, o, s, SetupBatch(c));
    if x.status != 0 then A.Out(x.status, x.st, 0)
    else A.Out(0, x.st.(sh := x.st.sh.(apBank := REG_BANK)), 0)
  }

  // ---------------------------------------------------------------------
  // Register masks and selectors

  /** `mask & (1ULL << n)` is nonzero. */
  predicate Bit(mask: bv64, n: nat)
    requires n < 64
  {
    mask & ((1 as bv64) << n) != 0
  }

  /** Mask bits that name a register: core registers 0..20, FPSCR (31) and S0..S31 (32..63). */
  predicate Selectable(n: nat) {
    n < 21 || n == 31 || 32 <= n < 64
  }

  /** The DCRSR.REGSEL value of a mask bit: n, 64 + (n - 32), or 33 for FPSCR. */
  function RegSel(n: nat): (m: nat)
    requires Selectable(n)
    ensures m < 0x10000
  {
    if n < 21 then n
    else if n >= 32 then 64 + (n - 32)
    else 33
  }

  /** RegSel as the regData word. */
  function Selector(n: nat): bv32
    requires Selectable(n)
  {
    RegSel(n) as bv32
  }

  /** Set bits of `mask` below `n`. */
  function SetCount(mask: bv64, n: nat): (k: nat)
    requires n <= 64
    ensures k <= n
  {
    if n == 0 then 0
    else SetCount(mask, n - 1) + (if Bit(mask, n - 1) then 1 else 0)
  }

  /** Set bits of `mask` below `n` that name a register. */
  function SelCount(mask: bv64, n: nat): (k: nat)
    requires n <= 64
    ensures k <= SetCount(mask, n)
  {
    if n == 0 then 0
    else SelCount(mask, n - 1) + (if Bit(mask, n - 1) && Selectable(n - 1) then 1 else 0)
  }

  /** Mask bits 21..30, which name no register and which the prepare loop skips. */
  const GAP_BITS: bv64 := 0x7FE0_0000

  // ---------------------------------------------------------------------
  // RDDI_DAP_GetARMRegs

  /** Select (DCRSR), wait for S_REGRDY (DHCSR), read (DCRDR); the last regData is never set. */
  function GetEntry(n: nat): Batch
    requires Selectable(n)
  {
    Batch([DAP_REG_AP_0x4, WAIT_READY, READ_DCRDR], [Selector(n), S_REGRDY, 0])
  }

  /** The list the prepare loop has built after mask bits 0..n-1. */
  function GetPrep(mask: bv64, n: nat): (b: Batch)
    requires n <= 64
    ensures |b.ids| == |b.data| == 3 * SelCount(mask, n)
  {
    if n == 0 then Batch([], [])
    else
      var b := GetPrep(mask, n - 1);
      if Bit(mask, n - 1) && Selectable(n - 1) then Join(b, GetEntry(n - 1)) else b
  }

  /**
   * RDDI_DAP_GetARMRegs up to the store loop; the reply is the one whose
   * words the store loop copies out.
   */
  function Get(c: Config, o: Oracle, s: A.St, mask: bv64): RegOut {
    if !c.handle || mask == 0 then RegOut(RDDI_DAP_ERROR_INTERNAL, s, Reply(0, []))
    else
      var u := Setup(c, o, s);
      if u.status != 0 then RegOut(u.status, u.st, Reply(0, []))
      else
        var x := Issue(c, o, u.st, GetPrep(mask, 64));
        if x.status != 0 then x
        else
          var y := A.Sticky(c, o, x.st);
          RegOut(y.status, y.st, x.reply)
  }

  /** The store loop's index for mask bit n: three entries per set bit below it. */
  function StoreIndex(mask: bv64, n: nat): nat
    requires n <= 64
  {
    3 * SetCount(mask, n) + 2
  }

  /** The core registers once the store loop has handled mask bits 0..n-1. */
  function CoreStore(a: seq<bv32>, mask: bv64, r: Reply, n: nat): (b: seq<bv32>)
    requires n <= 64
    ensures |b| == |a|
  {
    seq(|a|, (j: int) requires 0 <= j < |a| =>
      if j < CORE_WORDS && j < n && Bit(mask, j) then Word(r, StoreIndex(mask, j)) else a[j])
  }

  /** The FPU registers once the store loop has handled mask bits 0..n-1. */
  function FpuStore(a: seq<bv32>, mask: bv64, r: Reply, n: nat): (b: seq<bv32>)
    requires n <= 64
    ensures |b| == |a|
  {
    seq(|a|, (j: int) requires 0 <= j < |a| =>
      if j < 32 && j + 32 < n && Bit(mask, j + 32) then Word(r, StoreIndex(mask, j + 32))
      else if j == FPSCR_INDEX && 31 < n && Bit(mask, 31) then Word(r, StoreIndex(mask, 31))
      else a[j])
  }

  /** One step of the store loop on the core registers. */
  lemma CoreStoreStep(a: seq<bv32>, mask: bv64, r: Reply, n: nat)
    requires n < 64 && |a| >= CORE_WORDS
    ensures CoreStore(a, mask, r, n + 1) ==
      if n < CORE_WORDS && Bit(mask, n) then CoreStore(a, mask, r, n)[n := Word(r, StoreIndex(mask, n))]
      else CoreStore(a, mask, r, n)
  {
  }

  /** One step of the store loop on the FPU registers. */
  lemma FpuStoreStep(a: seq<bv32>, mask: bv64, r: Reply, n: nat)
    requires n < 64 && |a| >= FPU_WORDS
    ensures FpuStore(a, mask, r, n + 1) ==
      if n >= 32 && Bit(mask, n) then FpuStore(a, mask, r, n)[n - 32 := Word(r, StoreIndex(mask, n))]
      else if n == 31 && Bit(mask, n) then FpuStore(a, mask, r, n)[FPSCR_INDEX := Word(r, StoreIndex(mask, n))]
      else FpuStore(a, mask, r, n)
  {
  }

  // ---------------------------------------------------------------------
  // RDDI_DAP_SetARMRegs

  /** Write DCRDR, select with REGWnR (DCRSR), wait for S_REGRDY (DHCSR). */
  function SetEntry(n: nat, val: bv32): Batch
    requires Selectable(n)
  {
    var m := REG_WRITE | Selector(n);
    Batch([DAP_REG_AP_0x8, DAP_REG_AP_0x4, WAIT_READY], [val, REG_WRITE | m, S_REGRDY])
  }

  /** The caller's register blocks are large enough for what the loops index. */
  predicate Sizes(core: Option<seq<bv32>>, fpu: Option<seq<bv32>>) {
    (core.Some? ==> |core.value| >= CORE_WORDS) && (fpu.Some? ==> |fpu.value| >= FPU_WORDS)
  }

  /** Mask bit n is written: it is set and the block holding its register was passed. */
  predicate Written(mask: bv64, core: Option<seq<bv32>>, fpu: Option<seq<bv32>>, n: nat)
    requires n < 64
  {
    Bit(mask, n) && ((n < 21 && core.Some?) || (n >= 32 && fpu.Some?) || (n == 31 && fpu.Some?))
  }

  /** The value of the register of a written mask bit. */
  function Value(core: Option<seq<bv32>>, fpu: Option<seq<bv32>>, n: nat): bv32
    requires n < 64 && Sizes(core, fpu)
    requires (n < 21 && core.Some?) || (n >= 31 && fpu.Some?)
  {
    if n < 21 && core.Some? then core.value[n]
    else if n >= 32 then fpu.value[n - 32]
    else fpu.value[FPSCR_INDEX]
  }

  /** Written mask bits below n. */
  function WriteCount(mask: bv64, core: Option<seq<bv32>>, fpu: Option<seq<bv32>>, n: nat): (k: nat)
    requires n <= 64
    ensures k <= SelCount(mask, n)
  {
    if n == 0 then 0
    else WriteCount(mask, core, fpu, n - 1) + (if Written(mask, core, fpu, n - 1) then 1 else 0)
  }

  /** The list the prepare loop of RDDI_DAP_SetARMRegs has built after mask bits 0..n-1. */
  function SetPrep(mask: bv64, core: Option<seq<bv32>>, fpu: Option<seq<bv32>>, n: nat): (b: Batch)
    requires n <= 64 && Sizes(core, fpu)
    ensures |b.ids| == |b.data| == 3 * WriteCount(mask, core, fpu, n)
  {
    if n == 0 then Batch([], [])
    else
      var b := SetPrep(mask, core, fpu, n - 1);
      if Written(mask, core, fpu, n - 1) then Join(b, SetEntry(n - 1, Value(core, fpu, n - 1))) else b
  }

  /** One step of the prepare loop of RDDI_DAP_SetARMRegs. */
  lemma SetPrepStep(mask: bv64, core: Option<seq<bv32>>, fpu: Option<seq<bv32>>, n: nat)
    requires n < 64 && Sizes(core, fpu)
    ensures SetPrep(mask, core, fpu, n + 1) ==
      if Written(mask, core, fpu, n) then Join(SetPrep(mask, core, fpu, n), SetEntry(n, Value(core, fpu, n)))
      else SetPrep(mask, core, fpu, n)
  {
  }

  /** RDDI_DAP_SetARMRegs; `None` is a block the caller did not pass. */
  function Set(c: Config, o: Oracle, s: A.St, mask: bv64, core: Option<seq<bv32>>, fpu: Option<seq<bv32>>): A.Out
    requires Sizes(core, fpu)
  {
    if !c.handle || mask == 0 then A.Out(RDDI_DAP_ERROR_INTERNAL, s, 0)
    else
      var u := Setup(c, o, s);
      if u.status != 0 then u
      else
        var x := Issue(c, o, u.st, SetPrep(mask, core, fpu, 64));
        if x.status != 0 then A.Out(x.status, x.st, 0)
        else A.Sticky(c, o, x.st)
  }

  // ---------------------------------------------------------------------
  // RDDI_DAP_SysCallExec and RDDI_DAP_SysCallRes

  /** R0..R3, R9, SP, LR, PC and xPSR: the registers a system call passes. */
  const CALL_MASK: bv64 := 0x0001_E20F
  /** Register numbers the prepare loop of RDDI_DAP_SysCallExec visits (`n <= 16`). */
  const CALL_REGS: nat := 17

  /** Write DCRDR, select register n with REGWnR (DCRSR), wait for S_REGRDY (DHCSR). */
  function CallEntry(n: nat, val: bv32): Batch
    requires n < CALL_REGS
  {
    Batch([DAP_REG_AP_0x8, DAP_REG_AP_0x4, WAIT_READY], [val, REG_WRITE | n as bv32, S_REGRDY])
  }

  /** The list after registers 0..n-1 of the call mask. */
  function CallPrep(regs: seq<bv32>, n: nat): (b: Batch)
    requires n <= CALL_REGS <= |regs|
    ensures |b.ids| == |b.data| == 3 * SetCount(CALL_MASK, n)
  {
    if n == 0 then Batch([], [])
    else
      var b := CallPrep(regs, n - 1);
      if Bit(CALL_MASK, n - 1) then Join(b, CallEntry(n - 1, regs[n - 1])) else b
  }

  /** Set bits only accumulate. */
  lemma {:induction false} SetCountMono(mask: bv64, a: nat, b: nat)
    requires a <= b <= 64
    ensures SetCount(mask, a) <= SetCount(mask, b)
    decreases b
  {
    if a < b {
      SetCountMono(mask, a, b - 1);
    }
  }

  /** Nine registers are passed to a system call. */
  lemma CallCount()
    ensures SetCount(CALL_MASK, CALL_REGS) == 9
  {
    assert SetCount(CALL_MASK, 1) == 1;
    assert SetCount(CALL_MASK, 2) == 2;
    assert SetCount(CALL_MASK, 3) == 3;
    assert SetCount(CALL_MASK, 4) == 4;
    assert SetCount(CALL_MASK, 5) == 4;
    assert SetCount(CALL_MASK, 6) == 4;
    assert SetCount(CALL_MASK, 7) == 4;
    assert SetCount(CALL_MASK, 8) == 4;
    assert SetCount(CALL_MASK, 9) == 4;
    assert SetCount(CALL_MASK, 10) == 5;
    assert SetCount(CALL_MASK, 11) == 5;
    assert SetCount(CALL_MASK, 12) == 5;
    assert SetCount(CALL_MASK, 13) == 5;
    assert SetCount(CALL_MASK, 14) == 6;
    assert SetCount(CALL_MASK, 15) == 7;
    assert SetCount(CALL_MASK, 16) == 8;
  }

  /** The whole list: the registers, DHCSR = DBGKEY | C_DEBUGEN, and a CTRL/STAT read. */
  function CallBatch(regs: seq<bv32>): Batch
    requires CALL_REGS <= |regs|
  {
    Join(CallPrep(regs, CALL_REGS), Batch([DAP_REG_AP_0x0, READ_CTRL_STAT], [DBGKEY | C_DEBUGEN, 0]))
  }

  /** RDDI_DAP_SysCallExec: the CTRL/STAT word read back by the batch is checked for sticky errors. */
  function CallExec(c: Config, o: Oracle, s: A.St, regs: seq<bv32>): A.Out
    requires CALL_REGS <= |regs|
  {
    if !c.handle then A.Out(RDDI_DAP_ERROR_INTERNAL, s, 0)
    else
      var u := Setup(c, o, s);
      if u.status != 0 then u
      else
        var x := Issue(c, o, u.st, CallBatch(regs));
        if x.status != 0 then A.Out(x.status, x.st, 0)
        else A.CheckSticky(c, o, x.st, Word(x.reply, |CallBatch(regs).ids| - 1))
  }

  /** Select R0, wait for S_REGRDY, read DCRDR, read CTRL/STAT. */
  const RESULT_BATCH: Batch :=
    Batch([DAP_REG_AP_0x4, WAIT_READY, READ_DCRDR, READ_CTRL_STAT], [0, S_REGRDY, 0, 0])

  /** RDDI_DAP_SysCallRes; the value is R0, handed back only on success. */
  function CallResult(c: Config, o: Oracle, s: A.St): A.Out {
    if !c.handle then A.Out(RDDI_DAP_ERROR_INTERNAL, s, 0)
    else
      var u := Setup(c, o, s);
      if u.status != 0 then u
      else
        var x := Issue(c, o, u.st, RESULT_BATCH);
        if x.status != 0 then A.Out(x.status, x.st, 0)
        else
          var y := A.CheckSticky(c, o, x.st, Word(x.reply, 3));
          if y.status != 0 then y
          else A.Out(0, y.st, Word(x.reply, 2))
  }
}
