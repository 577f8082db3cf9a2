/** RDDI_DAP_DebugInit on a session object. */
module PowerUp {
  import opened DapTypes
  import opened Session
  import A = AccessSpec
  import P = PowerSpec

  /** The polling loop: read CTRL/STAT until powered up, a failure, or `polls` reads. */
  method Poll(d: Dap, polls: nat) returns (status: int, val: bv32)
    requires polls >= 1
    modifies d.probe
    ensures var x := P.Poll(d.cfg, d.probe.respond, old(d.State()), polls);
      status == x.status && d.State() == x.st && val == x.value
  {
    ghost var s0 := d.State();
    status, val := d.ReadDP(DP_CTRL_STAT);
    var k := polls;
    while status == 0 && !P.Acked(val) && k > 1
      invariant 1 <= k <= polls
      invariant P.Poll(d.cfg, d.probe.respond, s0, polls) == P.Continue(d.cfg, d.probe.respond, A.Out(status, d.State(), val), k)
      decreases k
    {
      status, val := d.ReadDP(DP_CTRL_STAT);
      k := k - 1;
    }
  }

  /** RDDI_DAP_DebugInit */
  method DebugInit(d: Dap, polls: nat) returns (status: int)
    requires polls >= 1
    modifies d.probe
    ensures var x := P.DebugInit(d.cfg, d.probe.respond, old(d.State()), polls);
      status == x.status && d.State() == x.st
  {
    status := d.WriteDP(DP_SELECT, 0);
    if status != 0 {
      return;
    }
    status := d.WriteDP(DP_CTRL_STAT, P.PWRUP_REQ);
    if status != 0 {
      return;
    }
    var val;
    status, val := Poll(d, polls);
    if status != 0 {
      return;
    }
    if !P.Acked(val) {
      return RDDI_DAP_ERROR_POWER;
    }
    if d.cfg.swPort {
      status := d.Abort(P.CLEAR_ALL);
      if status != 0 {
        return;
      }
    }
    status := d.WriteDP(DP_CTRL_STAT, P.PWRUP_REQ | CDBGRSTREQ);
    if status != 0 {
      return;
    }
    status := d.WriteDP(DP_CTRL_STAT, P.FinalCtrl(d.cfg));
  }
}
