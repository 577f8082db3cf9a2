/**
 * Encodings shared by the whole model of the RDDI-DAP access-port layer:
 * the register IDs understood by the RDDI-DAP register primitive, the error
 * codes, the ARM Debug Interface v5 register offsets and flag bits, the
 * immutable session configuration and the transaction log entries.
 */
module DapTypes {

  /** A 32-bit target address (DWORD in the source); arithmetic on it wraps. */
  type Addr = a: int | 0 <= a < 0x1_0000_0000

  const ADDR_SPACE: int := 0x1_0000_0000

  /** `a + n` computed in 32-bit unsigned arithmetic. */
  function Wrap(a: int): (r: Addr)
    requires 0 <= a
    ensures a < ADDR_SPACE ==> r == a
  {
    a % ADDR_SPACE
  }

  // ---------------------------------------------------------------------
  // Status values returned by the primitive (rddi.h and rddi_dap.h)

  const RDDI_SUCCESS: int := 0
  const RDDI_DAP_ERR_START: int := 0x1000
  const RDDI_DAP_OPERATION_TIMEOUT: int := RDDI_DAP_ERR_START + 14
  const RDDI_DAP_DP_STICKY_ERR: int := RDDI_DAP_ERR_START + 15

  // Error codes returned by this layer (RDDI_DAP_IF.h)

  const RDDI_DAP_ERROR: int := 0x2000
  const RDDI_DAP_ERROR_INTERNAL: int := 0x2002
  const RDDI_DAP_ERROR_POWER: int := 0x2003
  const RDDI_DAP_ERROR_DEBUG: int := 0x2004
  const RDDI_DAP_ERROR_MEMORY: int := 0x2005

  /** Result of a block verify whose comparison found a difference. */
  const VERIFY_MISMATCH: int := -1

  // ---------------------------------------------------------------------
  // Register IDs of the primitive (rddi_dap.h)

  const DAP_REG_DP_0x0: bv32 := 0
  const DAP_REG_DP_0x4: bv32 := 1
  const DAP_REG_DP_0x8: bv32 := 2
  const DAP_REG_DP_0xC: bv32 := 3
  const DAP_REG_AP_0x0: bv32 := 4
  const DAP_REG_AP_0x4: bv32 := 5
  const DAP_REG_AP_0x8: bv32 := 6
  const DAP_REG_AP_0xC: bv32 := 7
  const DAP_REG_DP_ABORT: bv32 := 8
  const DAP_REG_MATCH_MASK: bv32 := 16
  const DAP_REG_MATCH_RETRY: bv32 := 17
  const DAP_REG_RnW: bv32 := 0x10000
  const DAP_REG_WaitForValue: bv32 := 0x20000

  const DAP_DP_REG_APSEL: bv32 := DAP_REG_DP_0x8
  const DAP_AP_REG_CSW: bv32 := DAP_REG_AP_0x0
  const DAP_AP_REG_TAR: bv32 := DAP_REG_AP_0x4
  const DAP_AP_REG_DRW: bv32 := DAP_REG_AP_0xC

  // ---------------------------------------------------------------------
  // ARM Debug Interface v5 (ARM IHI 0031), chapter B2: DP registers.
  // Byte addresses of the DP registers used by the layer.

  const DP_CTRL_STAT: bv8 := 0x04
  const DP_SELECT: bv8 := 0x08

  // ABORT register bits
  const DAPABORT: bv32 := 0x01
  const STKCMPCLR: bv32 := 0x02
  const STKERRCLR: bv32 := 0x04
  const WDERRCLR: bv32 := 0x08
  const ORUNERRCLR: bv32 := 0x10

  // CTRL/STAT register bits
  const STICKYORUN: bv32 := 0x0000_0002
  const TRNMODE: bv32 := 0x0000_000C
  const TRNNORMAL: bv32 := 0x0000_0000
  const TRNVERIFY: bv32 := 0x0000_0004
  const STICKYCMP: bv32 := 0x0000_0010
  const STICKYERR: bv32 := 0x0000_0020
  const WDATAERR: bv32 := 0x0000_0080
  const MASKLANE: bv32 := 0x0000_0F00
  const CDBGRSTREQ: bv32 := 0x0400_0000
  const CDBGPWRUPREQ: bv32 := 0x1000_0000
  const CDBGPWRUPACK: bv32 := 0x2000_0000
  const CSYSPWRUPREQ: bv32 := 0x4000_0000
  const CSYSPWRUPACK: bv32 := 0x8000_0000

  // SELECT register: the AP bank field
  const APBANKSEL: bv32 := 0x0000_00F0

  // ARM IHI 0031 chapter C2: MEM-AP register byte addresses and CSW fields
  const AP_CSW: bv8 := 0x00
  const AP_TAR: bv8 := 0x04
  const AP_DRW: bv8 := 0x0C

  const CSW_SIZE: bv32 := 0x07
  const CSW_SIZE8: bv32 := 0x00
  const CSW_SIZE16: bv32 := 0x01
  const CSW_SIZE32: bv32 := 0x02
  const CSW_ADDRINC: bv32 := 0x30
  const CSW_SADDRINC: bv32 := 0x10

  // ARMv7-M Architecture Reference Manual, section C1.6: DHCSR
  const DBGKEY: bv32 := 0xA05F_0000
  const C_DEBUGEN: bv32 := 0x0000_0001

  // ---------------------------------------------------------------------
  // Register IDs computed from byte addresses

  /** `DAP_REG_DP_0x0 + (adr >> 2)` */
  function DpId(adr: bv8): bv32 {
    DAP_REG_DP_0x0 + ((adr >> 2) as bv32)
  }

  /** `DAP_REG_AP_0x0 + ((adr & 0x0F) >> 2)`: the register inside the bank. */
  function ApId(adr: bv8): bv32 {
    DAP_REG_AP_0x0 + (((adr & 0x0F) >> 2) as bv32)
  }

  /** `(v & flags) != 0`: at least one of `flags` is set in `v`. */
  predicate AnySet(v: bv32, flags: bv32) {
    v & flags != 0
  }

  /** The bank of an AP register address, as it is written to SELECT. */
  function Bank(adr: bv8): bv32 {
    (adr as bv32) & APBANKSEL
  }

  // ---------------------------------------------------------------------
  // Session configuration and shadow state

  /** Power of two, as RWPage must be. */
  predicate IsPow2(n: nat)
    decreases n
  {
    n == 1 || (n > 1 && n % 2 == 0 && IsPow2(n / 2))
  }

  /**
   * Settings fixed for a connected session, declared outside the modelled
   * file: whether rddiHandle is open, whether the port is Serial Wire
   * (MonConf.Opt & PORT_SW), AP_Sel (the APSEL field for SELECT), DBG_Addr
   * (address of the core debug block) and RWPage (the page window).
   */
  datatype Config = Config(handle: bool, swPort: bool, apSel: bv32, dbgAddr: bv32, rwPage: nat)

  /** What the unaligned engine relies on: RWPage is a power of two of at least 4 bytes. */
  predicate ValidConfig(c: Config) {
    IsPow2(c.rwPage) && 4 <= c.rwPage <= 0x8000_0000
  }

  /** The two cached values: AP_Bank and CSW_Val. */
  datatype Shadow = Shadow(apBank: bv32, csw: bv32)

  // ---------------------------------------------------------------------
  // Primitive transactions and replies

  /**
   * One call of the register primitive, as issued:
   * rddi_DAP_ReadReg, rddi_DAP_WriteReg, rddi_DAP_RegAccessBlock (register
   * IDs with their flags and the regData values sent), rddi_DAP_RegReadRepeat
   * and rddi_DAP_RegWriteRepeat.
   */
  datatype Txn =
    | RegRead(id: bv32)
    | RegWrite(id: bv32, value: bv32)
    | AccessBlock(ids: seq<bv32>, data: seq<bv32>)
    | ReadRepeat(count: nat, id: bv32)
    | WriteRepeat(count: nat, id: bv32, data: seq<bv32>)

  /**
   * What the primitive hands back: its status and the words it stores (the
   * value read, regData after a block call, or the words of a repeated read).
   */
  datatype Reply = Reply(status: int, data: seq<bv32>)

  /** Word `i` stored by the primitive, zero past the end of what it returned. */
  function Word(r: Reply, i: nat): bv32 {
    if i < |r.data| then r.data[i] else 0
  }

  /** The behaviour of the primitive: the reply to the k-th call of the session. */
  type Oracle = nat -> Reply
}
