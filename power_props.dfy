/** Properties of RDDI_DAP_DebugInit, proved about PowerSpec. */
module PowerProps {
  import opened DapTypes
  import A = AccessSpec
  import AP = AccessProps
  import opened PowerSpec

  /** The CTRL/STAT read of the polling loop. */
  function ReadCtrl(): Txn {
    RegRead(DpId(DP_CTRL_STAT))
  }

  /** The last transaction of `log` is `t`. */
  predicate EndsWith(log: seq<Txn>, t: Txn) {
    |log| > 0 && log[|log| - 1] == t
  }

  /** A DP register write. */
  function DPWrite(adr: bv8, v: bv32): Txn {
    RegWrite(DpId(adr), v)
  }

  /**
   * A DP access that succeeds has issued its transaction last, after at
   * most three others, and leaves AP_Bank and CSW_Val alone; a failing one
   * reports an error code of this layer.
   */
  lemma DPLast(c: Config, o: Oracle, s: A.St, t: Txn)
    requires c.handle
    ensures var x := A.DPAccess(c, o, s, t);
      && AP.Extends(s, x.st) && s.log + [t] <= x.st.log && |x.st.log| <= |s.log| + 4
      && AP.Code(x.status)
      && (x.status == 0 ==> EndsWith(x.st.log, t))
  {
    AP.DPRetry(c, o, s, t);
    AP.DPCode(c, o, s, t);
    var f := A.Checked(c, o, s, t, 0);
    AP.CheckStatusMapping(c, o, A.Append(s, t), o(|s.log|).status);
    if f.status == RDDI_DAP_ERROR_MEMORY {
      AP.CheckStatusMapping(c, o, A.Append(f.st, t), o(|f.st.log|).status);
    }
  }

  /**
   * The polling loop reads CTRL/STAT at least once and issues at most
   * `4·k` transactions (at most `k` reads of `RDDI_DAP_ReadDP`, each with
   * its retry and ABORT writes), never touches AP_Bank or CSW_Val, and
   * reports an error code of this layer.
   */
  lemma {:induction false} PollBounds(c: Config, o: Oracle, s: A.St, k: nat)
    requires c.handle && k >= 1
    ensures var x := Poll(c, o, s, k);
      && AP.Extends(s, x.st) && s.log + [ReadCtrl()] <= x.st.log && |x.st.log| <= |s.log| + 4 * k
      && AP.Code(x.status)
    decreases k
  {
    DPLast(c, o, s, ReadCtrl());
    var x := A.ReadDP(c, o, s, DP_CTRL_STAT);
    if !(x.status != 0 || Acked(x.value) || k == 1) {
      PollBounds(c, o, x.st, k - 1);
    }
  }

  /** The number of entries of `log` equal to `t`. */
  function Count(log: seq<Txn>, t: Txn): nat {
    if |log| == 0 then 0 else Count(log[..|log| - 1], t) + (if log[|log| - 1] == t then 1 else 0)
  }

  /** Counting is additive over concatenation. */
  lemma {:induction false} CountAppend(a: seq<Txn>, b: seq<Txn>, t: Txn)
    ensures Count(a + b, t) == Count(a, t) + Count(b, t)
    decreases |b|
  {
    if |b| > 0 {
      assert (a + b)[..|a + b| - 1] == a + b[..|b| - 1];
      CountAppend(a, b[..|b| - 1], t);
    } else {
      assert a + b == a;
    }
  }

  /** A log extending `a + [t]` holds at least one more `t` than `a`. */
  lemma CountExtends(a: seq<Txn>, b: seq<Txn>, t: Txn)
    requires a + [t] <= b
    ensures Count(b, t) >= Count(a, t) + 1
  {
    assert b == (a + [t]) + b[|a| + 1..];
    CountAppend(a + [t], b[|a| + 1..], t);
    assert (a + [t])[..|a + [t]| - 1] == a;
  }

  /**
   * The polling loop hands back an unacknowledged value only once its whole
   * budget is spent: a successful run without both acknowledge bits has
   * issued at least `k` CTRL/STAT reads.
   */
  lemma {:induction false} PollSpendsBudget(c: Config, o: Oracle, s: A.St, k: nat)
    requires c.handle && k >= 1
    ensures var p := Poll(c, o, s, k);
      p.status == 0 && !Acked(p.value) ==> Count(p.st.log, ReadCtrl()) >= Count(s.log, ReadCtrl()) + k
    decreases k
  {
    DPLast(c, o, s, ReadCtrl());
    var x := A.ReadDP(c, o, s, DP_CTRL_STAT);
    CountExtends(s.log, x.st.log, ReadCtrl());
    if !(x.status != 0 || Acked(x.value) || k == 1) {
      PollSpendsBudget(c, o, x.st, k - 1);
    }
  }

  /**
   * RDDI_DAP_DebugInit reports ERROR_POWER only after the whole time budget:
   * at least `polls` CTRL/STAT reads were issued.
   */
  lemma DebugInitSpendsBudget(c: Config, o: Oracle, s: A.St, polls: nat)
    requires polls >= 1
    ensures var x := DebugInit(c, o, s, polls);
      x.status == RDDI_DAP_ERROR_POWER ==> Count(x.st.log, ReadCtrl()) >= Count(s.log, ReadCtrl()) + polls
  {
    if c.handle {
      PowerFailure(c, o, s, polls);
      var a := A.WriteDP(c, o, s, DP_SELECT, 0);
      var b := A.WriteDP(c, o, a.st, DP_CTRL_STAT, PWRUP_REQ);
      if a.status == 0 && b.status == 0 {
        Stages(c, o, s, polls);
        PollSpendsBudget(c, o, b.st, polls);
        assert s.log <= b.st.log;
        assert b.st.log == s.log + b.st.log[|s.log|..];
        CountAppend(s.log, b.st.log[|s.log|..], ReadCtrl());
      }
    }
  }

  /** The reset pulse and the final write. */
  lemma WritesShape(c: Config, o: Oracle, d: A.St)
    requires c.handle
    ensures var x := Writes(c, o, d);
      && AP.Extends(d, x.st) && |x.st.log| <= |d.log| + 8
      && AP.Code(x.status)
      && (x.status == 0 ==>
            d.log + [DPWrite(DP_CTRL_STAT, PWRUP_REQ | CDBGRSTREQ)] <= x.st.log &&
            EndsWith(x.st.log, DPWrite(DP_CTRL_STAT, FinalCtrl(c))))
  {
    DPLast(c, o, d, DPWrite(DP_CTRL_STAT, PWRUP_REQ | CDBGRSTREQ));
    var e := A.WriteDP(c, o, d, DP_CTRL_STAT, PWRUP_REQ | CDBGRSTREQ);
    DPLast(c, o, e.st, DPWrite(DP_CTRL_STAT, FinalCtrl(c)));
  }

  /** The part after the acknowledgement: the sticky clear on SW-DP, the reset pulse, then the final value. */
  lemma FinishShape(c: Config, o: Oracle, s: A.St)
    requires c.handle
    ensures var x := Finish(c, o, s);
      var d := if c.swPort then A.Append(s, AP.AbortTxn(CLEAR_ALL)) else s;
      && AP.Extends(s, x.st) && |x.st.log| <= |s.log| + 9
      && AP.Code(x.status)
      && (x.status == 0 ==>
            d.log + [DPWrite(DP_CTRL_STAT, PWRUP_REQ | CDBGRSTREQ)] <= x.st.log &&
            EndsWith(x.st.log, DPWrite(DP_CTRL_STAT, FinalCtrl(c))))
  {
    var d := if c.swPort then A.Abort(c, o, s, CLEAR_ALL) else A.Out(0, s, 0);
    assert AP.Extends(s, d.st) && |d.st.log| <= |s.log| + 1;
    if d.status == 0 {
      WritesShape(c, o, d.st);
    }
  }

  /**
   * RDDI_DAP_DebugInit never changes AP_Bank or CSW_Val (SELECT is written
   * as 0 behind AP_Bank's back), only appends to the log, and issues at most
   * seventeen transactions besides four per CTRL/STAT read.
   */
  lemma DebugInitFrame(c: Config, o: Oracle, s: A.St, polls: nat)
    requires polls >= 1
    ensures var x := DebugInit(c, o, s, polls);
      AP.Extends(s, x.st) && |x.st.log| <= |s.log| + 17 + 4 * polls
  {
    if c.handle {
      Stages(c, o, s, polls);
    }
  }

  /** The stages of RDDI_DAP_DebugInit and what each leaves behind. */
  lemma Stages(c: Config, o: Oracle, s: A.St, polls: nat)
    requires c.handle && polls >= 1
    ensures var a := A.WriteDP(c, o, s, DP_SELECT, 0);
      var b := A.WriteDP(c, o, a.st, DP_CTRL_STAT, PWRUP_REQ);
      var p := Poll(c, o, b.st, polls);
      var x := DebugInit(c, o, s, polls);
      && AP.Extends(s, a.st) && AP.Extends(a.st, b.st) && AP.Extends(b.st, p.st) && AP.Extends(s, x.st)
      && AP.Code(a.status) && AP.Code(b.status) && AP.Code(p.status)
      && |x.st.log| <= |s.log| + 17 + 4 * polls
      && (a.status == 0 ==> EndsWith(a.st.log, DPWrite(DP_SELECT, 0)))
      && (b.status == 0 ==> a.st.log + [DPWrite(DP_CTRL_STAT, PWRUP_REQ)] <= b.st.log)
      && b.st.log + [ReadCtrl()] <= p.st.log
      && (a.status == 0 && b.status == 0 && p.status == 0 && Acked(p.value) ==> x == Finish(c, o, p.st))
  {
    DPLast(c, o, s, DPWrite(DP_SELECT, 0));
    var a := A.WriteDP(c, o, s, DP_SELECT, 0);
    DPLast(c, o, a.st, DPWrite(DP_CTRL_STAT, PWRUP_REQ));
    var b := A.WriteDP(c, o, a.st, DP_CTRL_STAT, PWRUP_REQ);
    PollBounds(c, o, b.st, polls);
    var p := Poll(c, o, b.st, polls);
    FinishShape(c, o, p.st);
  }

  /**
   * RDDI_DAP_DebugInit reports ERROR_POWER exactly when both writes and every
   * read succeeded but the last CTRL/STAT value read lacks an acknowledge bit.
   */
  lemma PowerFailure(c: Config, o: Oracle, s: A.St, polls: nat)
    requires c.handle && polls >= 1
    ensures var a := A.WriteDP(c, o, s, DP_SELECT, 0);
      var b := A.WriteDP(c, o, a.st, DP_CTRL_STAT, PWRUP_REQ);
      var p := Poll(c, o, b.st, polls);
      DebugInit(c, o, s, polls).status == RDDI_DAP_ERROR_POWER <==>
        a.status == 0 && b.status == 0 && p.status == 0 && !Acked(p.value)
  {
    Stages(c, o, s, polls);
    var a := A.WriteDP(c, o, s, DP_SELECT, 0);
    var b := A.WriteDP(c, o, a.st, DP_CTRL_STAT, PWRUP_REQ);
    FinishShape(c, o, Poll(c, o, b.st, polls).st);
  }

  /**
   * A successful RDDI_DAP_DebugInit wrote SELECT = 0, requested power-up,
   * saw both acknowledge bits, cleared the sticky flags on SW-DP, pulsed the
   * debug reset request and wrote the final CTRL/STAT value last.
   */
  lemma PoweredUp(c: Config, o: Oracle, s: A.St, polls: nat)
    requires c.handle && polls >= 1
    ensures var a := A.WriteDP(c, o, s, DP_SELECT, 0);
      var b := A.WriteDP(c, o, a.st, DP_CTRL_STAT, PWRUP_REQ);
      var p := Poll(c, o, b.st, polls);
      var x := DebugInit(c, o, s, polls);
      var d := if c.swPort then A.Append(p.st, AP.AbortTxn(CLEAR_ALL)) else p.st;
      x.status == 0 ==>
        && EndsWith(a.st.log, DPWrite(DP_SELECT, 0))
        && a.st.log + [DPWrite(DP_CTRL_STAT, PWRUP_REQ)] <= b.st.log
        && b.st.log + [ReadCtrl()] <= p.st.log && Acked(p.value)
        && d.log + [DPWrite(DP_CTRL_STAT, PWRUP_REQ | CDBGRSTREQ)] <= x.st.log
        && EndsWith(x.st.log, DPWrite(DP_CTRL_STAT, FinalCtrl(c)))
  {
    Stages(c, o, s, polls);
    var a := A.WriteDP(c, o, s, DP_SELECT, 0);
    var b := A.WriteDP(c, o, a.st, DP_CTRL_STAT, PWRUP_REQ);
    var p := Poll(c, o, b.st, polls);
    FinishShape(c, o, p.st);
    if DebugInit(c, o, s, polls).status == 0 {
      assert a.status == 0 && b.status == 0 && p.status == 0 && Acked(p.value);
    }
  }

  /** Without a session nothing is issued. */
  lemma NoSession(c: Config, o: Oracle, s: A.St, polls: nat)
    requires !c.handle && polls >= 1
    ensures DebugInit(c, o, s, polls) == A.Out(RDDI_DAP_ERROR_INTERNAL, s, 0)
  {
  }

  /**
   * The final CTRL/STAT value keeps both power-up requests, releases the
   * debug reset request, enables all byte lanes in normal transfer mode, and
   * sets the sticky-flag bits only on JTAG.
   */
  lemma FinalCtrlBits(c: Config)
    ensures FinalCtrl(c) & PWRUP_REQ == PWRUP_REQ
    ensures FinalCtrl(c) & CDBGRSTREQ == 0
    ensures FinalCtrl(c) & MASKLANE == MASKLANE
    ensures FinalCtrl(c) & TRNMODE == TRNNORMAL
    ensures FinalCtrl(c) & (STICKYERR | STICKYCMP | STICKYORUN) == (if c.swPort then 0 else STICKYERR | STICKYCMP | STICKYORUN)
  {
  }
}
