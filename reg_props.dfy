/**
 * Properties of the register-file operations RDDI_DAP_GetARMRegs,
 * RDDI_DAP_SetARMRegs, RDDI_DAP_SysCallExec and RDDI_DAP_SysCallRes, proved
 * about RegSpec and so, through the contracts of the RegFile methods, about
 * the methods.
 */
module RegProps {
  import opened DapTypes
  import A = AccessSpec
  import AP = AccessProps
  import opened RegSpec

  /** The RegAccessBlock transaction of a list. */
  function BlockTxn(b: Batch): Txn {
    AccessBlock(b.ids, b.data)
  }

  // ---------------------------------------------------------------------
  // Setup and refusals

  /**
   * The setup batch is the first transaction; AP_Bank becomes 0x10 exactly
   * when it succeeds, which is exactly when the primitive accepted it, and
   * CSW_Val never changes.  A successful setup issues nothing else.
   */
  lemma SetupBank(c: Config, o: Oracle, s: A.St)
    requires c.handle
    ensures var x := Setup(c, o, s);
      && s.log + [BlockTxn(SetupBatch(c))] <= x.st.log
      && x.st.sh.csw == s.sh.csw
      && x.st.sh.apBank == (if x.status == 0 then REG_BANK else s.sh.apBank)
      && (x.status == 0 <==> o(|s.log|).status == 0)
      && (x.status == 0 ==> x.st.log == s.log + [BlockTxn(SetupBatch(c))])
  {
    var t := BlockTxn(SetupBatch(c));
    AP.CheckStatusMapping(c, o, A.Append(s, t), o(|s.log|).status);
  }

  /** Without a session, or with an empty mask, nothing is issued and the result is ERROR_INTERNAL. */
  lemma Refusals(c: Config, o: Oracle, s: A.St, mask: bv64, core: Option<seq<bv32>>, fpu: Option<seq<bv32>>)
    requires Sizes(core, fpu) && (!c.handle || mask == 0)
    ensures Get(c, o, s, mask).status == RDDI_DAP_ERROR_INTERNAL && Get(c, o, s, mask).st == s
    ensures Set(c, o, s, mask, core, fpu) == A.Out(RDDI_DAP_ERROR_INTERNAL, s, 0)
  {
  }

  // ---------------------------------------------------------------------
  // Register selectors

  /**
   * The DCRSR.REGSEL values: mask bits 0..20 select core registers 0..20,
   * bit 31 selects FPSCR (33) and bits 32..63 select S0..S31 (64..95); no
   * two mask bits select the same register.
   */
  lemma SelectorMapping(a: nat, b: nat)
    requires Selectable(a) && Selectable(b)
    ensures a < 21 ==> RegSel(a) == a
    ensures a == 31 ==> RegSel(a) == 33
    ensures 32 <= a ==> 64 <= RegSel(a) < 96 && RegSel(a) == 64 + (a - 32)
    ensures RegSel(a) == RegSel(b) ==> a == b
  {
  }

  /** In a read list the selection word has REGWnR (0x10000) clear. */
  lemma ReadSelection(n: nat)
    requires Selectable(n)
    ensures GetEntry(n).data[0] & REG_WRITE == 0
  {
    SelectorBound(n);
    SelBits(Selector(n));
  }

  /**
   * In a write list the selection word is the read list's selection word
   * with REGWnR (0x10000) set; as that bit is clear in the selector, the
   * register selected is the same.
   */
  lemma WriteSelection(n: nat, val: bv32)
    requires Selectable(n)
    ensures SetEntry(n, val).data[1] == GetEntry(n).data[0] | REG_WRITE
  {
    OrTwice(Selector(n));
  }

  /** Setting REGWnR twice is setting it once. */
  lemma OrTwice(x: bv32)
    ensures REG_WRITE | (REG_WRITE | x) == x | REG_WRITE
  {
  }

  /** A selector fits in DCRSR.REGSEL, below the REGWnR bit. */
  lemma SelectorBound(n: nat)
    requires Selectable(n)
    ensures Selector(n) < 0x10000
  {
    var m := RegSel(n);
    assert m < 0x10000;
  }

  /** Bit 16 is clear in a value below 0x10000. */
  lemma SelBits(x: bv32)
    requires x < 0x10000
    ensures x & REG_WRITE == 0
  {
  }

  // ---------------------------------------------------------------------
  // List layout

  /** Entries i, i+1, i+2 of list b are those of the three-entry list e. */
  predicate EntryAt(b: Batch, i: nat, e: Batch) {
    i + 3 <= |b.ids| && i + 3 <= |b.data| && b.ids[i..i + 3] == e.ids && b.data[i..i + 3] == e.data
  }

  /** Appending to a list keeps its entries where they are. */
  lemma JoinKeeps(b: Batch, e: Batch, i: nat, f: Batch)
    requires EntryAt(b, i, f)
    ensures EntryAt(Join(b, e), i, f)
  {
    assert Join(b, e).ids[i..i + 3] == b.ids[i..i + 3];
    assert Join(b, e).data[i..i + 3] == b.data[i..i + 3];
  }

  /** Appending a three-entry list puts it at the old length. */
  lemma JoinPlaces(b: Batch, e: Batch)
    requires |b.ids| == |b.data| && |e.ids| == |e.data| == 3
    ensures EntryAt(Join(b, e), |b.ids|, e)
  {
    assert Join(b, e).ids[|b.ids|..|b.ids| + 3] == e.ids;
    assert Join(b, e).data[|b.ids|..|b.ids| + 3] == e.data;
  }

  /**
   * The read list holds, for every set mask bit that names a register, the
   * three entries DCRSR = selector, wait for S_REGRDY, read DCRDR, at three
   * times the number of such bits below it: in mask order, with nothing
   * between them.
   */
  lemma {:induction false} GetEntryAt(mask: bv64, n: nat, j: nat)
    requires j < n <= 64 && Bit(mask, j) && Selectable(j)
    ensures EntryAt(GetPrep(mask, n), 3 * SelCount(mask, j), GetEntry(j))
    decreases n
  {
    if j == n - 1 {
      JoinPlaces(GetPrep(mask, j), GetEntry(j));
    } else {
      GetEntryAt(mask, n - 1, j);
      GetEntryKept(mask, n - 1, 3 * SelCount(mask, j), GetEntry(j));
    }
  }

  /** A later bit leaves the entries already in the read list where they are. */
  lemma GetEntryKept(mask: bv64, n: nat, i: nat, f: Batch)
    requires n < 64 && EntryAt(GetPrep(mask, n), i, f)
    ensures EntryAt(GetPrep(mask, n + 1), i, f)
  {
    if Bit(mask, n) && Selectable(n) {
      JoinKeeps(GetPrep(mask, n), GetEntry(n), i, f);
    }
  }

  /** The write list holds the three entries of every written mask bit, in mask order. */
  lemma {:induction false} SetEntryAt(mask: bv64, core: Option<seq<bv32>>, fpu: Option<seq<bv32>>, n: nat, j: nat)
    requires j < n <= 64 && Sizes(core, fpu) && Written(mask, core, fpu, j)
    ensures EntryAt(SetPrep(mask, core, fpu, n), 3 * WriteCount(mask, core, fpu, j), SetEntry(j, Value(core, fpu, j)))
    decreases n
  {
    if j == n - 1 {
      SetEntryPlaced(mask, core, fpu, j);
    } else {
      SetEntryAt(mask, core, fpu, n - 1, j);
      SetEntryKept(mask, core, fpu, n - 1, 3 * WriteCount(mask, core, fpu, j), SetEntry(j, Value(core, fpu, j)));
    }
  }

  /** The entries of a written bit go at the end of the list built so far. */
  lemma SetEntryPlaced(mask: bv64, core: Option<seq<bv32>>, fpu: Option<seq<bv32>>, j: nat)
    requires j < 64 && Sizes(core, fpu) && Written(mask, core, fpu, j)
    ensures EntryAt(SetPrep(mask, core, fpu, j + 1), 3 * WriteCount(mask, core, fpu, j), SetEntry(j, Value(core, fpu, j)))
  {
    var e := SetEntry(j, Value(core, fpu, j));
    SetPrepStep(mask, core, fpu, j);
    JoinPlaces(SetPrep(mask, core, fpu, j), e);
  }

  /** A later bit leaves the entries already in the write list where they are. */
  lemma SetEntryKept(mask: bv64, core: Option<seq<bv32>>, fpu: Option<seq<bv32>>, n: nat, i: nat, f: Batch)
    requires n < 64 && Sizes(core, fpu) && EntryAt(SetPrep(mask, core, fpu, n), i, f)
    ensures EntryAt(SetPrep(mask, core, fpu, n + 1), i, f)
  {
    SetPrepStep(mask, core, fpu, n);
    if Written(mask, core, fpu, n) {
      JoinKeeps(SetPrep(mask, core, fpu, n), SetEntry(n, Value(core, fpu, n)), i, f);
    }
  }

  /** A set bit is sent in a write list exactly when its register block was passed. */
  lemma WrittenIffPassed(mask: bv64, core: Option<seq<bv32>>, fpu: Option<seq<bv32>>, n: nat)
    requires n < 64 && Bit(mask, n) && Selectable(n)
    ensures Written(mask, core, fpu, n) <==> (if n < 21 then core.Some? else fpu.Some?)
  {
  }

  // ---------------------------------------------------------------------
  // Read-back alignment of RDDI_DAP_GetARMRegs

  /** A set bit that names no register lies in GAP_BITS. */
  lemma GapBit(mask: bv64, n: nat)
    requires n < 64 && Bit(mask, n) && !Selectable(n)
    ensures mask & GAP_BITS != 0
  {
    assert 21 <= n <= 30;
    assert ((1 as bv64) << n) & GAP_BITS == (1 as bv64) << n;
  }

  /** With bits 21..30 clear, every set bit names a register, so the two counts agree. */
  lemma {:induction false} CountsAgree(mask: bv64, n: nat)
    requires n <= 64 && mask & GAP_BITS == 0
    ensures SetCount(mask, n) == SelCount(mask, n)
  {
    if n > 0 {
      CountsAgree(mask, n - 1);
      if Bit(mask, n - 1) && !Selectable(n - 1) {
        GapBit(mask, n - 1);
      }
    }
  }

  /**
   * Read-back is aligned when mask bits 21..30 are clear: the word the store
   * loop copies into the register of a set bit is the reply to the DCRDR
   * read that follows the DCRSR selection of that very register.
   */
  lemma StoreReadsOwnEntry(mask: bv64, n: nat)
    requires n < 64 && Bit(mask, n) && Selectable(n) && mask & GAP_BITS == 0
    ensures var b := GetPrep(mask, 64); var k := StoreIndex(mask, n);
      2 <= k < |b.ids| &&
      b.ids[k - 2] == DAP_REG_AP_0x4 && b.data[k - 2] == Selector(n) && b.ids[k] == READ_DCRDR
  {
    CountsAgree(mask, n);
    GetEntryAt(mask, 64, n);
    var b := GetPrep(mask, 64);
    var i := 3 * SelCount(mask, n);
    assert b.ids[i..i + 3][0] == b.ids[i] && b.ids[i..i + 3][2] == b.ids[i + 2];
    assert b.data[i..i + 3][0] == b.data[i];
  }

  /** Once a set bit outside the registers has been passed, the two counts stay apart. */
  lemma {:induction false} GapCount(mask: bv64, n: nat, g: nat)
    requires g < n <= 64 && Bit(mask, g) && !Selectable(g)
    ensures SetCount(mask, n) >= SelCount(mask, n) + 1
    decreases n
  {
    if g < n - 1 {
      GapCount(mask, n - 1, g);
    }
  }

  /**
   * With a bit of 21..30 set below a register's bit, the store loop reads
   * that register's value at least one whole entry past the DCRDR read of
   * its own selection.
   */
  lemma GapMisaligns(mask: bv64, g: nat, n: nat)
    requires 21 <= g < 31 && g < n < 64 && Bit(mask, g) && Bit(mask, n) && Selectable(n)
    ensures StoreIndex(mask, n) >= 3 * SelCount(mask, n) + 2 + 3
  {
    GapCount(mask, n, g);
  }

  /** Counting over a run of clear bits changes nothing. */
  lemma {:induction false} ClearRun(mask: bv64, a: nat, b: nat)
    requires a <= b <= 64
    requires forall k :: a <= k < b ==> !Bit(mask, k)
    ensures SetCount(mask, b) == SetCount(mask, a) && SelCount(mask, b) == SelCount(mask, a)
    decreases b
  {
    if a < b {
      ClearRun(mask, a, b - 1);
    }
  }

  /** Bits 21 and 31: FPSCR is requested together with one bit that names no register. */
  const GAP_EXAMPLE: bv64 := 0x8020_0000

  /** Bits 0..20 and 22..30 of the example mask are clear. */
  lemma ExampleLowCount()
    ensures SetCount(GAP_EXAMPLE, 31) == 1 && SelCount(GAP_EXAMPLE, 31) == 0
  {
    assert forall k :: 0 <= k < 21 ==> !Bit(GAP_EXAMPLE, k);
    ClearRun(GAP_EXAMPLE, 0, 21);
    assert Bit(GAP_EXAMPLE, 21);
    assert forall k :: 22 <= k < 31 ==> !Bit(GAP_EXAMPLE, k);
    ClearRun(GAP_EXAMPLE, 22, 31);
  }

  /** Bits 32..63 of the example mask are clear. */
  lemma ExampleHighCount()
    ensures SelCount(GAP_EXAMPLE, 64) == SelCount(GAP_EXAMPLE, 32)
  {
    assert forall k :: 32 <= k < 64 ==> !Bit(GAP_EXAMPLE, k);
    ClearRun(GAP_EXAMPLE, 32, 64);
  }

  /**
   * For the mask with bits 21 and 31 set, the read list has the three
   * entries of FPSCR only, but the store loop copies FPSCR from regData[5],
   * which lies past the end of the list.
   */
  lemma GapExample(a: seq<bv32>, r: Reply)
    requires |a| >= FPU_WORDS
    ensures |GetPrep(GAP_EXAMPLE, 64).ids| == 3
    ensures StoreIndex(GAP_EXAMPLE, 31) == 5
    ensures FpuStore(a, GAP_EXAMPLE, r, 64)[FPSCR_INDEX] == Word(r, 5)
  {
    ExampleLowCount();
    ExampleHighCount();
    assert Bit(GAP_EXAMPLE, 31);
    assert SelCount(GAP_EXAMPLE, 32) == 1;
    var b := FpuStore(a, GAP_EXAMPLE, r, 64);
    assert b[FPSCR_INDEX] == Word(r, StoreIndex(GAP_EXAMPLE, 31));
  }

  // ---------------------------------------------------------------------
  // Order of checks

  /**
   * RDDI_DAP_GetARMRegs succeeds, and so stores anything, only after the
   * setup batch, the read list and the CTRL/STAT read of the sticky check
   * were issued in that order, with AP_Bank left at 0x10.
   */
  lemma GetChecked(c: Config, o: Oracle, s: A.St, mask: bv64)
    requires c.handle
    ensures var g := Get(c, o, s, mask);
      g.status == 0 ==>
        s.log + [BlockTxn(SetupBatch(c)), BlockTxn(GetPrep(mask, 64)), RegRead(DpId(DP_CTRL_STAT))] <= g.st.log &&
        g.st.sh == s.sh.(apBank := REG_BANK)
  {
    SetupBank(c, o, s);
    var u := Setup(c, o, s);
    if u.status == 0 && mask != 0 {
      ListChecked(c, o, u.st, GetPrep(mask, 64));
    }
  }

  /**
   * RDDI_DAP_SetARMRegs succeeds only after the setup batch, the write list
   * and the CTRL/STAT read of the sticky check were issued in that order,
   * with AP_Bank left at 0x10.
   */
  lemma SetChecked(c: Config, o: Oracle, s: A.St, mask: bv64, core: Option<seq<bv32>>, fpu: Option<seq<bv32>>)
    requires c.handle && Sizes(core, fpu)
    ensures var x := Set(c, o, s, mask, core, fpu);
      x.status == 0 ==>
        s.log + [BlockTxn(SetupBatch(c)), BlockTxn(SetPrep(mask, core, fpu, 64)), RegRead(DpId(DP_CTRL_STAT))] <= x.st.log &&
        x.st.sh == s.sh.(apBank := REG_BANK)
  {
    SetupBank(c, o, s);
    var u := Setup(c, o, s);
    if u.status == 0 && mask != 0 {
      ListChecked(c, o, u.st, SetPrep(mask, core, fpu, 64));
    }
  }

  /** A list that passes CheckStatus and the sticky check leaves the list and the CTRL/STAT read in the log. */
  lemma ListChecked(c: Config, o: Oracle, s: A.St, b: Batch)
    requires c.handle
    ensures var x := Issue(c, o, s, b);
      x.status == 0 ==>
        var y := A.Sticky(c, o, x.st);
        y.status == 0 ==> s.log + [BlockTxn(b), RegRead(DpId(DP_CTRL_STAT))] <= y.st.log && y.st.sh == s.sh
  {
    var t := BlockTxn(b);
    AP.CheckStatusMapping(c, o, A.Append(s, t), o(|s.log|).status);
    var x := Issue(c, o, s, b);
    if x.status == 0 {
      assert x.st == A.Append(s, t);
      AP.DPRetry(c, o, x.st, RegRead(DpId(DP_CTRL_STAT)));
      var d := A.ReadDP(c, o, x.st, DP_CTRL_STAT);
      if d.status == 0 {
        AP.StickyCheckCases(c, o, d.st, d.value);
      }
    }
  }

  // ---------------------------------------------------------------------
  // System calls

  /** The system call passes R0..R3, R9, SP (13), LR (14), PC (15) and xPSR (16). */
  lemma CallRegisters(n: nat)
    requires n < CALL_REGS
    ensures Bit(CALL_MASK, n) <==> n in {0, 1, 2, 3, 9, 13, 14, 15, 16}
  {
  }

  /** The call list holds the three entries of every passed register, in register order. */
  lemma {:induction false} CallEntryAt(regs: seq<bv32>, n: nat, j: nat)
    requires j < n <= CALL_REGS <= |regs| && Bit(CALL_MASK, j)
    ensures EntryAt(CallPrep(regs, n), 3 * SetCount(CALL_MASK, j), CallEntry(j, regs[j]))
    decreases n
  {
    if j == n - 1 {
      JoinPlaces(CallPrep(regs, j), CallEntry(j, regs[j]));
    } else {
      CallEntryAt(regs, n - 1, j);
      CallEntryKept(regs, n - 1, 3 * SetCount(CALL_MASK, j), CallEntry(j, regs[j]));
    }
  }

  /** A later register leaves the entries already in the call list where they are. */
  lemma CallEntryKept(regs: seq<bv32>, n: nat, i: nat, f: Batch)
    requires n < CALL_REGS <= |regs| && EntryAt(CallPrep(regs, n), i, f)
    ensures EntryAt(CallPrep(regs, n + 1), i, f)
  {
    if Bit(CALL_MASK, n) {
      JoinKeeps(CallPrep(regs, n), CallEntry(n, regs[n]), i, f);
    }
  }

  /**
   * RDDI_DAP_SysCallExec sends 9 x 3 + 2 = 29 entries: the nine registers,
   * then DHCSR = DBGKEY | C_DEBUGEN at 27 and the CTRL/STAT read at 28.
   */
  lemma CallBatchShape(regs: seq<bv32>)
    requires CALL_REGS <= |regs|
    ensures var b := CallBatch(regs);
      |b.ids| == |b.data| == 29 &&
      b.ids[27] == DAP_REG_AP_0x0 && b.data[27] == DBGKEY | C_DEBUGEN && b.ids[28] == READ_CTRL_STAT
  {
    CallCount();
  }

  /**
   * RDDI_DAP_SysCallExec succeeds exactly when the setup and the call list
   * are accepted and the CTRL/STAT word read at the end of the list shows no
   * latched error.
   */
  lemma CallExecChecksStat(c: Config, o: Oracle, s: A.St, regs: seq<bv32>)
    requires c.handle && CALL_REGS <= |regs|
    ensures var u := Setup(c, o, s); var r := o(|u.st.log|);
      CallExec(c, o, s, regs).status == 0 <==>
        u.status == 0 && r.status == 0 && !AnySet(Word(r, 28), A.StickyFlags(c))
  {
    SetupBank(c, o, s);
    CallBatchShape(regs);
    var u := Setup(c, o, s);
    var r := o(|u.st.log|);
    var t := BlockTxn(CallBatch(regs));
    AP.CheckStatusFailure(c, o, A.Append(u.st, t), r.status);
    AP.CheckStatusMapping(c, o, A.Append(u.st, t), r.status);
    StickyOk(c, o, A.Append(u.st, t), Word(r, 28));
  }

  /** The sticky check passes exactly when no latched-error flag is set. */
  lemma StickyOk(c: Config, o: Oracle, s: A.St, stat: bv32)
    requires c.handle
    ensures A.CheckSticky(c, o, s, stat).status == 0 <==> !AnySet(stat, A.StickyFlags(c))
  {
    AP.StickyCheckCases(c, o, s, stat);
    if AnySet(stat, A.StickyFlags(c)) && !c.swPort {
      AP.DPCode(c, o, s, RegWrite(DpId(DP_CTRL_STAT), stat));
    }
  }

  /**
   * RDDI_DAP_SysCallRes succeeds exactly when both lists are accepted and
   * the CTRL/STAT word read shows no latched error, and then hands back the
   * DCRDR word read after selecting R0.
   */
  lemma CallResultValue(c: Config, o: Oracle, s: A.St)
    requires c.handle
    ensures var u := Setup(c, o, s); var r := o(|u.st.log|); var x := CallResult(c, o, s);
      && (x.status == 0 <==> u.status == 0 && r.status == 0 && !AnySet(Word(r, 3), A.StickyFlags(c)))
      && (x.status == 0 ==> x.value == Word(r, 2))
      && RESULT_BATCH.data[0] == 0 && RESULT_BATCH.ids[2] == READ_DCRDR
  {
    SetupBank(c, o, s);
    var u := Setup(c, o, s);
    var r := o(|u.st.log|);
    var t := BlockTxn(RESULT_BATCH);
    AP.CheckStatusFailure(c, o, A.Append(u.st, t), r.status);
    AP.CheckStatusMapping(c, o, A.Append(u.st, t), r.status);
    StickyOk(c, o, A.Append(u.st, t), Word(r, 3));
  }
}
