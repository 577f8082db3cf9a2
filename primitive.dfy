/**
 * The RDDI-DAP register primitive (rddi_DAP_ReadReg, rddi_DAP_WriteReg,
 * rddi_DAP_RegAccessBlock, rddi_DAP_RegReadRepeat, rddi_DAP_RegWriteRepeat)
 * seen from the host layer: every call is appended to a log, and the reply
 * (status and stored words) of the k-th call of the session is fixed by an
 * arbitrary oracle.  Nothing is required of the oracle, so every property
 * proved over it holds whatever the probe, the wire and the target do.
 */
module Primitive {
  import opened DapTypes

  class Probe {
    /** The reply the primitive gives to each call, by position in the session. */
    const respond: Oracle
    /** Every transaction issued so far, oldest first. */
    var log: seq<Txn>

    constructor (respond: Oracle)
      ensures this.respond == respond
      ensures log == []
    {
      this.respond := respond;
      log := [];
    }

    /** Issue one transaction. */
    method Call(t: Txn) returns (r: Reply)
      modifies this
      ensures log == old(log) + [t]
      ensures r == respond(|old(log)|)
    {
      r := respond(|log|);
      log := log + [t];
    }
  }
}
