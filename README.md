# RDDI-DAP access-port layer of the Cortex-M debug driver

This project models the host-side Debug Access Port (DAP) layer of the
RDDI example driver. That layer sits between the debugger and the RDDI
probe library. It talks to the debug port (DP) and to the memory access
port (MEM-AP) of an ARM Cortex-M target, and offers these operations:

- DP and AP register reads and writes. These cache the AP bank last
  written to SELECT (`AP_Bank`) and the value CSW is believed to hold
  (`CSW_Val`).
- Fault recovery after timeouts and sticky errors.
- 8, 16 and 32-bit memory accesses on the right bus lanes.
- Block reads, writes and pushed-compare verifies.
- The page-chunked memory engine behind `RDDI_DAP_ReadARMMem`,
  `RDDI_DAP_WriteARMMem` and `RDDI_DAP_VerifyARMMem`.
- Core and FPU register access through DCRSR/DCRDR batches.
- The system-call helpers.
- The power-up sequence of `RDDI_DAP_DebugInit`.

## How the model is built

Every operation has two layers:

- **Specification functions.** `AccessSpec`, `MemSpec`, `RegSpec` and
  `PowerSpec` give each C function a pure function.
  - The state `St` holds the cached registers `Shadow(apBank, csw)` and
    the log of every transaction issued to the probe, oldest first.
  - The probe is an *oracle*: the reply to a call depends only on the
    call's position in the session.
  - Fixed session facts become a `Config`: the connection handle,
    SW-DP or JTAG-DP, `AP_Sel`, `RWPage` and `DBG_Addr`.
- **Imperative methods.** The C functions themselves are methods:
  - `Session.Dap` is a class with the `AP_Bank` and `CSW_Val` fields;
  - `Primitive.Probe` appends every transaction it receives to its log;
  - `Memory` moves a caller's byte `array`;
  - `RegFile` fills `regID`/`regData` arrays and stores into the caller's
    register blocks;
  - `PowerUp` runs the polling loop.

  Each method is proved to do exactly what its specification function
  says: the same return code, cache, transaction log and buffer
  contents.

The properties are proved as lemmas about the specification functions, in
`AccessProps`, `MemProps`, `RegProps` and `PowerProps`. `DapTypes` holds the
constants and `Lanes` the byte-lane and host byte-order arithmetic.

Modelling choices the source leaves open:

- `adr & (RWPage - 1)` is written `adr % RWPage`, with `RWPage` a power
  of two.
- `nMany & ~3` is written `nMany - nMany % 4`.
- `*nAdr` is the start address plus the buffer offset, modulo 2^32.
- Like the source, the sized accessors update `CSW_Val` before they write
  CSW. They compare only the size field, so the address-increment field
  set by a block transfer persists (`AccessProps.CswWithField`).
- The register setup batch writes TAR through the AP register ID and SELECT
  unconditionally, whatever `AP_Bank` holds (`RegProps.SetupBank`).
- `RDDI_DAP_DebugInit` writes SELECT = 0 without touching `AP_Bank`
  (`PowerProps.DebugInitFrame`).
- `RDDI_DAP_GetARMRegs` builds its read list over the mask bits that
  name a register. Its store loop, however, counts every set bit. A set
  bit in 21..30 shifts the read-back of every later register. Three
  lemmas cover this:
  - `RegProps.StoreReadsOwnEntry` shows the read-back is aligned when
    those bits are clear;
  - `RegProps.GapMisaligns` shows it is shifted by at least one entry
    otherwise;
  - `RegProps.GapExample` gives the mask with bits 21 and 31 set, for
    which FPSCR is taken from `regData[5]`, past the end of the list.

  The model keeps this behaviour as written.
- On a sticky fault, `RDDI_DAP_VerifyBlock` clears with ABORT word
  `STKERRCLR | STICKYCMP | WDERRCLR`. STICKYCMP is a CTRL/STAT bit; in
  the ABORT register the same bit 4 is ORUNERRCLR, and STKCMPCLR (bit 1)
  is not written (`AccessProps.VerifyClearBits`). The model writes the
  word as the source does.
- When a verify chunk reports ERROR_MEMORY, `RDDI_DAP_VerifyARMMem` redoes
  the chunk with `RDDI_DAP_ReadD32`. The words read land in the caller's
  buffer and are never compared with its contents
  (`MemProps.MemoryErrorFallsBack`, `MemSpec.Word32`). The model keeps
  this behaviour as written.

## Model

| member | source | states |
|---|---|---|
| Session.Dap.Abort | RDDI/Example/RDDI_DAP_IF.cpp:331-341 | return code and transaction log are those of `AccessSpec.Abort`: one ABORT write, ERROR_DEBUG when the probe refuses it |
| Session.Dap.CheckStatus | RDDI/Example/RDDI_DAP_IF.cpp:347-363 | the fault classification and recovery of `AccessSpec.CheckStatus` (see `AccessProps.CheckStatusMapping`) |
| Session.Dap.Checked | RDDI/Example/RDDI_DAP_IF.cpp:370-388 | one primitive call then CheckStatus, with the reply word handed back, as `AccessSpec.Checked` |
| Session.Dap.DPAccess | RDDI/Example/RDDI_DAP_IF.cpp:370-388 | the single-retry loop on ERROR_MEMORY described by `AccessSpec.DPAccess` (see `AccessProps.DPRetry`) |
| Session.Dap.ReadDP | RDDI/Example/RDDI_DAP_IF.cpp:370-388 | status, value, cache and log of `AccessSpec.ReadDP` |
| Session.Dap.WriteDP | RDDI/Example/RDDI_DAP_IF.cpp:395-413 | status, cache and log of `AccessSpec.WriteDP` |
| Session.Dap.APAccess | RDDI/Example/RDDI_DAP_IF.cpp:420-439 | the bank-cached SELECT switch followed by the AP transaction, as `AccessSpec.APAccess` (see `AccessProps.APBankCache`) |
| Session.Dap.ReadAP | RDDI/Example/RDDI_DAP_IF.cpp:420-439 | status, value, cache and log of `AccessSpec.ReadAP` |
| Session.Dap.WriteAP | RDDI/Example/RDDI_DAP_IF.cpp:446-465 | status, cache and log of `AccessSpec.WriteAP` |
| Session.Dap.BankZero | RDDI/Example/RDDI_DAP_IF.cpp:503-507 | SELECT = AP_Sel only when AP_Bank is not 0, and AP_Bank cleared only after success, as `AccessSpec.BankZero` |
| Session.Dap.SetCsw | RDDI/Example/RDDI_DAP_IF.cpp:509-514 | CSW written only when its size field differs, with CSW_Val updated first, as `AccessSpec.SetCsw` |
| Session.Dap.ReadData | RDDI/Example/RDDI_DAP_IF.cpp:472-494 | the two-entry TAR/DRW batch and the DRW word returned, as `AccessSpec.ReadData` |
| Session.Dap.WriteData | RDDI/Example/RDDI_DAP_IF.cpp:585-606 | the two-entry TAR/DRW write batch, as `AccessSpec.WriteData` |
| Session.Dap.SizedRead | RDDI/Example/RDDI_DAP_IF.cpp:500-520 | bank 0, the CSW size field, then ReadData, as `AccessSpec.SizedRead` (see `AccessProps.SizedReadShape`) |
| Session.Dap.SizedWrite | RDDI/Example/RDDI_DAP_IF.cpp:612-631 | bank 0, the CSW size field, then WriteData, as `AccessSpec.SizedWrite` (see `AccessProps.SizedWriteShape`) |
| Session.Dap.ReadD32 | RDDI/Example/RDDI_DAP_IF.cpp:500-520 | status, word, cache and log of `AccessSpec.ReadD32` |
| Session.Dap.ReadD16 | RDDI/Example/RDDI_DAP_IF.cpp:526-549 | the 16-bit sized read, and the halfword taken from lane `(adr & 2) << 3` of its DRW word |
| Session.Dap.ReadD8 | RDDI/Example/RDDI_DAP_IF.cpp:555-578 | the 8-bit sized read, and the byte taken from lane `(adr & 3) << 3` of its DRW word |
| Session.Dap.WriteD32 | RDDI/Example/RDDI_DAP_IF.cpp:612-631 | status, cache and log of `AccessSpec.WriteD32` |
| Session.Dap.WriteD16 | RDDI/Example/RDDI_DAP_IF.cpp:637-656 | the 16-bit sized write of the halfword shifted onto its lane, as `AccessSpec.WriteD16` |
| Session.Dap.WriteD8 | RDDI/Example/RDDI_DAP_IF.cpp:662-681 | the 8-bit sized write of the byte shifted onto its lane, as `AccessSpec.WriteD8` |
| Session.Dap.CheckStickyError | RDDI/Example/RDDI_DAP_IF.cpp:687-707 | the port-dependent sticky-flag clear of `AccessSpec.CheckSticky` (see `AccessProps.StickyCheckCases`) |
| Session.Dap.StickyError | RDDI/Example/RDDI_DAP_IF.cpp:712-721 | CTRL/STAT read and then CheckStickyError of the value, as `AccessSpec.Sticky` |
| Session.Dap.BlockSetup | RDDI/Example/RDDI_DAP_IF.cpp:738-752 | bank 0, CSW 32-bit single increment, and TAR = adr, as `AccessSpec.BlockSetup` |
| Session.Dap.ReadBlock | RDDI/Example/RDDI_DAP_IF.cpp:729-763 | status, cache and log of `AccessSpec.ReadBlock`, and the returned DWORDs stored little-endian into the buffer from `pos` on, the rest of the buffer unchanged |
| Session.Dap.WriteBlock | RDDI/Example/RDDI_DAP_IF.cpp:771-805 | status, cache and log of `AccessSpec.WriteBlock` |
| Session.Dap.VerifyBlock | RDDI/Example/RDDI_DAP_IF.cpp:813-895 | status, cache and log of `AccessSpec.VerifyBlock`, including -1 for a mismatch |
| Session.Dap.VerifyEnd | RDDI/Example/RDDI_DAP_IF.cpp:884-894 | the CTRL/STAT restore at `end` and the code returned, as `AccessSpec.VerifyEnd` (see `AccessProps.VerifyEndRestores`) |
| Session.Dap.Outcome | RDDI/Example/RDDI_DAP_IF.cpp:849-882 | the handling of the pushed-compare reply and mismatch flag, as `AccessSpec.VerifyOutcome` (see `AccessProps.VerifyOutcomeFlag`) |
| Primitive.Probe.Call | RDDI/Example/RDDI_DAP_IF.cpp:378 | every transaction is appended to the log, and the reply is the oracle's answer for its position |
| AccessProps.CheckStatusMapping | RDDI/Example/RDDI_DAP_IF.cpp:347-363 | success and unclassified failures issue nothing (0 and RDDI_DAP_ERROR); a timeout issues one ABORT with DAPABORT, a sticky fault one with STKERRCLR\|WDERRCLR, then ERROR_MEMORY, or ERROR_DEBUG if that ABORT failed; the cache never changes |
| AccessProps.CheckStatusFailure | RDDI/Example/RDDI_DAP_IF.cpp:347-363 | CheckStatus returns 0 exactly when the primitive did |
| AccessProps.DPRetry | RDDI/Example/RDDI_DAP_IF.cpp:370-413 | a DP access is retried once, only after ERROR_MEMORY; a second ERROR_MEMORY becomes ERROR_DEBUG, so a DP access never returns ERROR_MEMORY; at most four transactions; the cache is untouched |
| AccessProps.CheckedShape | RDDI/Example/RDDI_DAP_IF.cpp:378-379 | one call is the transaction followed by at most one ABORT write |
| AccessProps.NoHandleNoTraffic | RDDI/Example/RDDI_DAP_IF.cpp:374 | without a connection every DP, AP and data access returns ERROR_INTERNAL and issues nothing |
| AccessProps.APBankCache | RDDI/Example/RDDI_DAP_IF.cpp:420-439 | on a bank hit the AP transaction goes first and AP_Bank stays; on a miss SELECT = AP_Sel \| (adr & APBANKSEL) goes first, a failure returns its code, success updates AP_Bank; CSW_Val never changes |
| AccessProps.APAccessSelects | RDDI/Example/RDDI_DAP_IF.cpp:425-429 | after a successful AP access its bank is the cached one |
| AccessProps.BankOfBankHits | RDDI/Example/RDDI_DAP_IF.cpp:425-428 | once the bank of a register is selected, that register is a hit |
| AccessProps.SameBankSameHit | RDDI/Example/RDDI_DAP_IF.cpp:425 | registers of one bank are both hits or both misses |
| AccessProps.ApIdInBank | RDDI/Example/RDDI_DAP_IF.cpp:431-434 | the AP register ID is the word offset of the register inside its bank |
| AccessProps.APTxnNotSelect | RDDI/Example/RDDI_DAP_IF.cpp:430-433 | the transaction of an AP register read or write is never a write of DP SELECT |
| AccessProps.SameBankOneSelect | RDDI/Example/RDDI_DAP_IF.cpp:419-465 | after the first access of a same-bank run of AP reads and writes succeeds, none of the rest writes SELECT |
| AccessProps.HitRunNoSelect | RDDI/Example/RDDI_DAP_IF.cpp:419-465 | a run of AP reads and writes hitting the cached bank writes no SELECT and keeps the cache |
| AccessProps.CheckedNoSelect | RDDI/Example/RDDI_DAP_IF.cpp:347-363 | a single transaction other than a SELECT write, with its fault handling, never writes SELECT |
| AccessProps.CswWithField | RDDI/Example/RDDI_DAP_IF.cpp:509-514 | `(CSW_Val & ~mask) \| want` holds `want` in the field and keeps every other bit |
| AccessProps.SetCswOnlyOnChange | RDDI/Example/RDDI_DAP_IF.cpp:509-514 | CSW is written only when the cached field differs; CSW_Val holds the new value even if the write fails; with bank 0 selected the CSW write is the first transaction |
| AccessProps.BankZeroOnlyOnChange | RDDI/Example/RDDI_DAP_IF.cpp:503-507 | SELECT = AP_Sel is written only when AP_Bank is not 0; AP_Bank becomes 0 only after success; CSW_Val is untouched |
| AccessProps.SizeSetupShape | RDDI/Example/RDDI_DAP_IF.cpp:503-514 | an already-set-up state issues nothing; success leaves bank 0 and the requested size |
| AccessProps.CheckedSuccess | RDDI/Example/RDDI_DAP_IF.cpp:378-387 | a call that succeeds issues nothing else and returns word `i` of its reply |
| AccessProps.SizedReadShape | RDDI/Example/RDDI_DAP_IF.cpp:500-520 | with the setup already in place only the TAR/DRW batch is issued; a successful read ends with that batch, returns its DRW word, and leaves bank 0 with the size set |
| AccessProps.SizedWriteShape | RDDI/Example/RDDI_DAP_IF.cpp:612-631 | the write counterpart: the last transaction is TAR = adr, DRW = word |
| AccessProps.NarrowLanes | RDDI/Example/RDDI_DAP_IF.cpp:637-681 | a narrow write puts its value on one lane only, and the narrow read at that address extracts it again |
| AccessProps.StickyCheckCases | RDDI/Example/RDDI_DAP_IF.cpp:687-707 | no flag: nothing issued, 0; SW-DP: one ABORT with STKERRCLR\|WDERRCLR; JTAG: CTRL/STAT written back; a successful clear reports ERROR_MEMORY |
| AccessProps.StickyFlagsByPort | RDDI/Example/RDDI_DAP_IF.cpp:692-701 | the latched error is STICKYERR or WDATAERR on SW-DP and STICKYERR alone on JTAG |
| AccessProps.DPCode | RDDI/Example/RDDI_DAP_IF.cpp:370-413 | a DP access returns 0 or one of this layer's error codes, never a raw primitive code |
| AccessProps.APCode | RDDI/Example/RDDI_DAP_IF.cpp:420-465 | likewise for an AP access |
| AccessProps.BlockRefusesBadLength | RDDI/Example/RDDI_DAP_IF.cpp:734-736 | a length of 0, not a multiple of 4, or over RWPage is ERROR_INTERNAL with nothing issued, for all three block operations |
| AccessProps.BlockSetupShape | RDDI/Example/RDDI_DAP_IF.cpp:738-752 | a successful setup ends with TAR = adr and leaves bank 0 and CSW at 32-bit single increment |
| AccessProps.BlockSetupCode | RDDI/Example/RDDI_DAP_IF.cpp:738-752 | the setup returns 0 or one of this layer's error codes |
| AccessProps.ReadBlockShape | RDDI/Example/RDDI_DAP_IF.cpp:755-760 | one repeated read of `n / 4` DRW words, the sticky check on success, and the words returned whatever the outcome |
| AccessProps.WriteBlockShape | RDDI/Example/RDDI_DAP_IF.cpp:771-805 | one repeated write of the buffer's DWORDs, then the sticky check on success |
| AccessProps.NoTrnNormal | RDDI/Example/RDDI_DAP_IF.cpp:884-886 | the restore value puts TRNMODE back to normal and keeps every other bit |
| AccessProps.CompareModeSelectsVerify | RDDI/Example/RDDI_DAP_IF.cpp:840-846 | the compare value selects pushed-verify mode and sets STICKYCMP |
| AccessProps.VerifyEndRestores | RDDI/Example/RDDI_DAP_IF.cpp:884-894 | the restore write is issued first; a pending error wins over the write's result, and that result and the mismatch flag count only when none is pending |
| AccessProps.VerifyOutcomeFlag | RDDI/Example/RDDI_DAP_IF.cpp:849-882 | the flag is 0 or -1; -1 needs STICKYCMP in a CTRL/STAT read that did not fail; STICKYERR after a clean write makes the result an error; unclassified failures pass through as RDDI_DAP_ERROR |
| AccessProps.VerifyOutcomeMemory | RDDI/Example/RDDI_DAP_IF.cpp:849-875 | the pending code is ERROR_MEMORY exactly when a timeout's DAPABORT succeeded, or a clean write read back CTRL/STAT with STICKYERR, or a sticky fault read CTRL/STAT, cleared it with ABORT and found STICKYERR or WDATAERR |
| AccessProps.VerifyEndMemory | RDDI/Example/RDDI_DAP_IF.cpp:884-894 | with a flag of 0 or -1, the restore at `end` returns ERROR_MEMORY exactly when that code was pending |
| AccessProps.VerifyBlockMemory | RDDI/Example/RDDI_DAP_IF.cpp:813-895 | `RDDI_DAP_VerifyBlock` returns ERROR_MEMORY exactly when the setup did, or when setup, CTRL/STAT read and compare-mode write all succeeded and the reply handling left ERROR_MEMORY pending |
| AccessProps.VerifyClearBits | RDDI/Example/RDDI_DAP_IF.cpp:861 | the ABORT word of the sticky path is STKERRCLR\|ORUNERRCLR\|WDERRCLR and does not hold STKCMPCLR |
| AccessProps.VerifyMismatchOnlyOnCompare | RDDI/Example/RDDI_DAP_IF.cpp:813-895 | -1 is returned only if the setup, the CTRL/STAT read and the compare write all succeeded and STICKYCMP was read set |
| Lanes.ByteShift | RDDI/Example/RDDI_DAP_IF.cpp:575 | the byte lane shift is 0, 8, 16 or 24 |
| Lanes.HalfShift | RDDI/Example/RDDI_DAP_IF.cpp:546 | the halfword lane shift is 0 or 16 |
| Lanes.ByteLaneRoundTrip | RDDI/Example/RDDI_DAP_IF.cpp:662-681 | a byte placed for address `adr` occupies only that lane and is extracted back unchanged |
| Lanes.HalfLaneRoundTrip | RDDI/Example/RDDI_DAP_IF.cpp:637-656 | likewise for a halfword |
| Lanes.ExtractByteIgnoresOtherLanes | RDDI/Example/RDDI_DAP_IF.cpp:555-578 | an 8-bit read depends only on the lane of its address |
| Lanes.ExtractHalfIgnoresOtherLanes | RDDI/Example/RDDI_DAP_IF.cpp:526-549 | a 16-bit read depends only on the lane of its address |
| Lanes.HalfBytesRoundTrip | RDDI/Example/RDDI_DAP_IF.cpp:1002 | the host halfword and its two little-endian buffer bytes are mutually inverse |
| Lanes.WordBytesRoundTrip | RDDI/Example/RDDI_DAP_IF.cpp:1019 | the host DWORD and its four little-endian buffer bytes are mutually inverse |
| Lanes.BytesWordsRoundTrip | RDDI/Example/RDDI_DAP_IF.cpp:797 | the DWORDs of a buffer run store back to exactly that run |
| Lanes.WordsBytesRoundTrip | RDDI/Example/RDDI_DAP_IF.cpp:755 | the bytes of a DWORD run read back as the same DWORDs |
| Lanes.Splice | RDDI/Example/RDDI_DAP_IF.cpp:755 | the buffer keeps its length; bytes in the run are replaced and all others kept |
| MemSpec.NarrowXfer | RDDI/Example/RDDI_DAP_IF.cpp:907-927 | a failing narrow access reports an error, and the cursor does not move |
| MemSpec.Narrow | RDDI/Example/RDDI_DAP_IF.cpp:907-927 | a narrow step either stops with an error where it started, or moves the cursor on by its width |
| MemSpec.Lead | RDDI/Example/RDDI_DAP_IF.cpp:907-927 | the leading steps move at most three bytes and, with four or more left, end 4-aligned; stopping means an error |
| MemSpec.Trail | RDDI/Example/RDDI_DAP_IF.cpp:954-974 | the trailing steps either consume every remaining byte or stop with an error |
| MemSpec.Word32 | RDDI/Example/RDDI_DAP_IF.cpp:937-942 | a fallback word either stops with an error where it started, or moves on by 4 |
| MemSpec.Slow | RDDI/Example/RDDI_DAP_IF.cpp:936-943 | the fallback loop either covers the chunk's whole words or stops with an error inside it |
| MemSpec.Block | RDDI/Example/RDDI_DAP_IF.cpp:933 | a block call leaves the cursor in place, and only a read changes the buffer |
| MemSpec.Chunk | RDDI/Example/RDDI_DAP_IF.cpp:929-952 | a chunk moves on by exactly `n` or stops inside it; only a verify stops with 0 |
| MemSpec.ReadBack | RDDI/Example/RDDI_DAP_IF.cpp:1098-1103 | after a mismatch the chunk is read back and the engine stops where the chunk started |
| MemSpec.Fallback | RDDI/Example/RDDI_DAP_IF.cpp:934-947 | the fallback either covers the chunk or stops with an error inside it |
| MemSpec.Chunks | RDDI/Example/RDDI_DAP_IF.cpp:929-952 | the loop ends with fewer than four bytes left, or stops; only a verify stops with 0 |
| MemSpec.Engine | RDDI/Example/RDDI_DAP_IF.cpp:903-977 | a run either consumes every byte or stops; only a verify stops with 0; the cursor only moves forward |
| MemSpec.WrapMod4 | RDDI/Example/RDDI_DAP_IF.cpp:903-977 | wrapping `*nAdr` at 2^32 keeps its alignment modulo 4 |
| MemSpec.ChunkFits | RDDI/Example/RDDI_DAP_IF.cpp:931-932 | a chunk from an aligned address is a positive multiple of 4 inside one RWPage window, ending at the window's end or covering every whole word left |
| MemSpec.OddStep | RDDI/Example/RDDI_DAP_IF.cpp:908-915 | the byte step from an odd address lands on an even one |
| MemSpec.HalfStep | RDDI/Example/RDDI_DAP_IF.cpp:919-926 | the halfword step from address bit 1 lands on a word boundary |
| MemSpec.WordStep | RDDI/Example/RDDI_DAP_IF.cpp:929-952 | a whole number of words keeps `*nAdr` word aligned |
| Memory.NarrowXfer | RDDI/Example/RDDI_DAP_IF.cpp:907-927 | status, session state and buffer are those of `MemSpec.NarrowXfer` |
| Memory.NarrowWrite | RDDI/Example/RDDI_DAP_IF.cpp:989-1009 | the narrow write of the buffer's byte or halfword, as `MemSpec.NarrowXfer` |
| Memory.NarrowRead | RDDI/Example/RDDI_DAP_IF.cpp:907-927 | the narrow read, with the value stored into the buffer only on success, as `MemSpec.NarrowXfer` |
| Memory.Narrow | RDDI/Example/RDDI_DAP_IF.cpp:907-927 | result, state and buffer of `MemSpec.Narrow` |
| Memory.Lead | RDDI/Example/RDDI_DAP_IF.cpp:907-927 | result, state and buffer of `MemSpec.Lead` |
| Memory.Trail | RDDI/Example/RDDI_DAP_IF.cpp:954-974 | result, state and buffer of `MemSpec.Trail` |
| Memory.Word32 | RDDI/Example/RDDI_DAP_IF.cpp:937-942 | result, state and buffer of `MemSpec.Word32` |
| Memory.Slow | RDDI/Example/RDDI_DAP_IF.cpp:936-943 | result, state and buffer of `MemSpec.Slow` |
| Memory.Fallback | RDDI/Example/RDDI_DAP_IF.cpp:934-947 | result, state and buffer of `MemSpec.Fallback` |
| Memory.Block | RDDI/Example/RDDI_DAP_IF.cpp:933 | result, state and buffer of `MemSpec.Block` |
| Memory.ReadBlock | RDDI/Example/RDDI_DAP_IF.cpp:933 | the block read of a chunk into the buffer, as `MemSpec.Block` |
| Memory.WriteBlock | RDDI/Example/RDDI_DAP_IF.cpp:1015 | the block write of a chunk, as `MemSpec.Block` |
| Memory.VerifyBlock | RDDI/Example/RDDI_DAP_IF.cpp:1097 | the block verify of a chunk, as `MemSpec.Block` |
| Memory.Chunk | RDDI/Example/RDDI_DAP_IF.cpp:929-952 | result, state and buffer of `MemSpec.Chunk` |
| Memory.Chunks | RDDI/Example/RDDI_DAP_IF.cpp:929-952 | result, state and buffer of `MemSpec.Chunks` |
| Memory.Transfer | RDDI/Example/RDDI_DAP_IF.cpp:903-977 | return code, final `*nAdr`, session state and buffer of `MemSpec.Transfer` |
| Memory.ReadARMMem | RDDI/Example/RDDI_DAP_IF.cpp:903-977 | `MemSpec.Transfer` of a read (see `MemProps.TransferOutcome`) |
| Memory.WriteARMMem | RDDI/Example/RDDI_DAP_IF.cpp:985-1059 | `MemSpec.Transfer` of a write |
| Memory.VerifyARMMem | RDDI/Example/RDDI_DAP_IF.cpp:1067-1147 | `MemSpec.Transfer` of a verify |
| MemProps.TransferOutcome | RDDI/Example/RDDI_DAP_IF.cpp:903-1147 | a run returning 0 has either consumed exactly `nMany` bytes, or is a verify that found a mismatch and stopped with at least 4 bytes unconsumed, so `*nAdr` tells the two apart; a stop leaves the cursor consistent with `nMany`; no byte past `nMany` is touched; a write never changes the buffer |
| MemProps.EngineConfined | RDDI/Example/RDDI_DAP_IF.cpp:903-1147 | the engine stores into the buffer only between `pB` and `pB + nMany` |
| MemProps.ChunkConfined | RDDI/Example/RDDI_DAP_IF.cpp:929-952 | a chunk, with its read-back or word-by-word fallback, stores only into its own `n` bytes |
| MemProps.LeadSkipsAligned | RDDI/Example/RDDI_DAP_IF.cpp:907-927 | from an aligned address the leading phase issues nothing |
| MemProps.ChunksNeverRefused | RDDI/Example/RDDI_DAP_IF.cpp:931-932 | every chunk meets the block transfers' length checks and stays inside one RWPage window |
| MemProps.MemoryErrorFallsBack | RDDI/Example/RDDI_DAP_IF.cpp:934-947 | a chunk failing with ERROR_MEMORY is redone word by word from the same place, then one sticky check, and the engine goes on after the chunk |
| MemProps.MismatchReadsBack | RDDI/Example/RDDI_DAP_IF.cpp:1098-1103 | a verify mismatch reads the chunk back into the buffer, returns the read's status and leaves `*nAdr` at the chunk start |
| MemProps.ChunkAfterBlock | RDDI/Example/RDDI_DAP_IF.cpp:948-951 | a successful block call moves the engine on by the chunk |
| MemProps.OkTransfer | RDDI/Example/RDDI_DAP_IF.cpp:903-1147 | with a probe that accepts everything and reports no flags, every read, write and verify of any length at any address completes |
| RegFile.Issue | RDDI/Example/RDDI_DAP_IF.cpp:1216-1219 | one RegAccessBlock then CheckStatus, as `RegSpec.Issue` |
| RegFile.Setup | RDDI/Example/RDDI_DAP_IF.cpp:1166-1187 | the setup batch, with AP_Bank = 0x10 only after success, as `RegSpec.Setup` |
| RegFile.GetARMRegs | RDDI/Example/RDDI_DAP_IF.cpp:1155-1240 | status and state of `RegSpec.Get`; the caller's blocks are stored per the store loop only on success and left alone otherwise |
| RegFile.GetList | RDDI/Example/RDDI_DAP_IF.cpp:1189-1214 | the read list is `RegSpec.GetPrep` over all 64 mask bits |
| RegFile.GetStep | RDDI/Example/RDDI_DAP_IF.cpp:1191-1213 | one mask bit of the prepare loop keeps the list equal to `RegSpec.GetPrep` |
| RegFile.GetPut | RDDI/Example/RDDI_DAP_IF.cpp:1203-1212 | the three entries of one register go at `i` and nothing else changes |
| RegFile.Store | RDDI/Example/RDDI_DAP_IF.cpp:1224-1237 | the caller's blocks become `RegSpec.CoreStore` and `RegSpec.FpuStore` of the reply |
| RegFile.StoreOne | RDDI/Example/RDDI_DAP_IF.cpp:1226-1236 | one step of the store loop, as `RegSpec.CoreStoreStep` and `RegSpec.FpuStoreStep` |
| RegFile.SetARMRegs | RDDI/Example/RDDI_DAP_IF.cpp:1248-1322 | status and state of `RegSpec.Set` |
| RegFile.SetList | RDDI/Example/RDDI_DAP_IF.cpp:1282-1311 | the write list is `RegSpec.SetPrep` over all 64 mask bits |
| RegFile.SetStep | RDDI/Example/RDDI_DAP_IF.cpp:1284-1310 | one mask bit of the prepare loop keeps the list equal to `RegSpec.SetPrep` |
| RegFile.SetPut | RDDI/Example/RDDI_DAP_IF.cpp:1299-1309 | the three entries of one written register go at `i` and nothing else changes |
| RegFile.Load | RDDI/Example/RDDI_DAP_IF.cpp:1286-1297 | a register is loaded exactly when its block was passed, and then is its value |
| RegFile.SysCallExec | RDDI/Example/RDDI_DAP_IF.cpp:1328-1404 | status and state of `RegSpec.CallExec` |
| RegFile.CallList | RDDI/Example/RDDI_DAP_IF.cpp:1371-1393 | the call list is `RegSpec.CallBatch`, and `i` indexes its last entry |
| RegFile.CallStep | RDDI/Example/RDDI_DAP_IF.cpp:1373-1384 | one register of the prepare loop keeps the list equal to `RegSpec.CallPrep` |
| RegFile.CallPut | RDDI/Example/RDDI_DAP_IF.cpp:1374-1383 | the three entries of one call register go at `i` and nothing else changes |
| RegFile.CallClose | RDDI/Example/RDDI_DAP_IF.cpp:1387-1393 | the closing DHCSR write and CTRL/STAT read are appended |
| RegFile.SysCallRes | RDDI/Example/RDDI_DAP_IF.cpp:1410-1462 | status, state and R0 value of `RegSpec.CallResult` |
| RegSpec.RegSel | RDDI/Example/RDDI_DAP_IF.cpp:1193-1200 | every REGSEL value lies below the REGWnR bit 0x10000 |
| RegSpec.GetPrep | RDDI/Example/RDDI_DAP_IF.cpp:1189-1214 | the read list has three entries per register bit |
| RegSpec.CoreStoreStep | RDDI/Example/RDDI_DAP_IF.cpp:1226-1236 | one store step writes the core register of a set bit 0..20 from `regData[i + 2]` |
| RegSpec.FpuStoreStep | RDDI/Example/RDDI_DAP_IF.cpp:1226-1236 | one store step writes S0..S31 or FPSCR from `regData[i + 2]` |
| RegSpec.SetPrep | RDDI/Example/RDDI_DAP_IF.cpp:1282-1311 | the write list has three entries per written bit |
| RegSpec.SetPrepStep | RDDI/Example/RDDI_DAP_IF.cpp:1284-1310 | a written bit appends its three entries; any other bit appends nothing |
| RegSpec.CallPrep | RDDI/Example/RDDI_DAP_IF.cpp:1371-1385 | the call list has three entries per call register |
| RegSpec.SetCountMono | RDDI/Example/RDDI_DAP_IF.cpp:1371-1385 | set bits only accumulate |
| RegSpec.CallCount | RDDI/Example/RDDI_DAP_IF.cpp:1360-1369 | nine registers are passed to a system call |
| RegProps.SetupBank | RDDI/Example/RDDI_DAP_IF.cpp:1166-1187 | the setup batch is issued first; AP_Bank becomes 0x10 exactly when the probe accepted it; CSW_Val never changes; success issues nothing else |
| RegProps.Refusals | RDDI/Example/RDDI_DAP_IF.cpp:1162-1164 | without a session or with an empty mask, ERROR_INTERNAL and nothing issued |
| RegProps.SelectorMapping | RDDI/Example/RDDI_DAP_IF.cpp:1193-1200 | bits 0..20 select registers 0..20, bit 31 FPSCR (33), bits 32..63 S0..S31 (64..95); no two bits select the same register |
| RegProps.ReadSelection | RDDI/Example/RDDI_DAP_IF.cpp:1203-1205 | in a read list the selection word has REGWnR clear |
| RegProps.WriteSelection | RDDI/Example/RDDI_DAP_IF.cpp:1302-1304 | in a write list the selection word is the read list's with REGWnR set |
| RegProps.SelectorBound | RDDI/Example/RDDI_DAP_IF.cpp:1193-1200 | every selector lies below the REGWnR bit |
| RegProps.GetEntryAt | RDDI/Example/RDDI_DAP_IF.cpp:1189-1214 | each register bit has its DCRSR select, S_REGRDY wait and DCRDR read at three times the number of register bits below it |
| RegProps.GetEntryKept | RDDI/Example/RDDI_DAP_IF.cpp:1189-1214 | later bits leave earlier entries in place |
| RegProps.SetEntryAt | RDDI/Example/RDDI_DAP_IF.cpp:1282-1311 | each written bit has its DCRDR write, DCRSR select and wait in place, in mask order |
| RegProps.SetEntryPlaced | RDDI/Example/RDDI_DAP_IF.cpp:1300-1309 | a written bit's entries go at the end of the list so far |
| RegProps.SetEntryKept | RDDI/Example/RDDI_DAP_IF.cpp:1282-1311 | later bits leave earlier entries in place |
| RegProps.WrittenIffPassed | RDDI/Example/RDDI_DAP_IF.cpp:1286-1298 | a set bit is sent exactly when its register block was passed |
| RegProps.GapBit | RDDI/Example/RDDI_DAP_IF.cpp:1191-1201 | a set bit naming no register lies in 21..30 |
| RegProps.CountsAgree | RDDI/Example/RDDI_DAP_IF.cpp:1224-1237 | with bits 21..30 clear, the store loop's count equals the prepare loop's |
| RegProps.StoreReadsOwnEntry | RDDI/Example/RDDI_DAP_IF.cpp:1224-1237 | with bits 21..30 clear, each register is stored from the DCRDR read after its own selection |
| RegProps.GapCount | RDDI/Example/RDDI_DAP_IF.cpp:1224-1237 | once a gap bit is passed, the store count exceeds the list count |
| RegProps.GapMisaligns | RDDI/Example/RDDI_DAP_IF.cpp:1224-1237 | with a gap bit below a register, its value is read at least one entry past its own DCRDR read |
| RegProps.ClearRun | RDDI/Example/RDDI_DAP_IF.cpp:1224-1237 | clear bits do not change either count |
| RegProps.ExampleLowCount | RDDI/Example/RDDI_DAP_IF.cpp:1224-1237 | the example mask's counts below bit 31 |
| RegProps.ExampleHighCount | RDDI/Example/RDDI_DAP_IF.cpp:1224-1237 | the example mask's counts up to bit 64 |
| RegProps.GapExample | RDDI/Example/RDDI_DAP_IF.cpp:1224-1237 | for mask bits 21 and 31, the list holds FPSCR's three entries but FPSCR is stored from `regData[5]` |
| RegProps.GetChecked | RDDI/Example/RDDI_DAP_IF.cpp:1166-1222 | GetARMRegs succeeds only after the setup, the read list and the CTRL/STAT read, in that order, with AP_Bank 0x10 |
| RegProps.SetChecked | RDDI/Example/RDDI_DAP_IF.cpp:1259-1319 | SetARMRegs succeeds only after the setup, the write list and the CTRL/STAT read, in that order, with AP_Bank 0x10 |
| RegProps.ListChecked | RDDI/Example/RDDI_DAP_IF.cpp:1216-1222 | a list passing CheckStatus and the sticky check leaves the list and the CTRL/STAT read in the log |
| RegProps.CallRegisters | RDDI/Example/RDDI_DAP_IF.cpp:1360-1369 | the call passes R0..R3, R9, SP, LR, PC and xPSR, and nothing else |
| RegProps.CallEntryAt | RDDI/Example/RDDI_DAP_IF.cpp:1371-1385 | each passed register's three entries are in place, in register order |
| RegProps.CallEntryKept | RDDI/Example/RDDI_DAP_IF.cpp:1371-1385 | later registers leave earlier entries in place |
| RegProps.CallBatchShape | RDDI/Example/RDDI_DAP_IF.cpp:1371-1393 | 29 entries: nine registers, DHCSR = DBGKEY\|C_DEBUGEN at 27, the CTRL/STAT read at 28 |
| RegProps.CallExecChecksStat | RDDI/Example/RDDI_DAP_IF.cpp:1337-1401 | SysCallExec succeeds exactly when the setup and the list are accepted and the CTRL/STAT word at 28 shows no latched error |
| RegProps.StickyOk | RDDI/Example/RDDI_DAP_IF.cpp:687-707 | the sticky check passes exactly when no flag is set |
| RegProps.CallResultValue | RDDI/Example/RDDI_DAP_IF.cpp:1417-1460 | SysCallRes succeeds exactly when both batches are accepted and CTRL/STAT shows no latched error, and then returns the DCRDR word read after selecting R0 |
| PowerUp.Poll | RDDI/Example/RDDI_DAP_IF.cpp:1497-1502 | status, value and state of `PowerSpec.Poll` |
| PowerUp.DebugInit | RDDI/Example/RDDI_DAP_IF.cpp:1485-1522 | status and state of `PowerSpec.DebugInit` |
| PowerProps.DPLast | RDDI/Example/RDDI_DAP_IF.cpp:370-413 | a successful DP access issues its transaction last, after at most three others, and leaves the cache alone |
| PowerProps.PollBounds | RDDI/Example/RDDI_DAP_IF.cpp:1497-1502 | the loop reads CTRL/STAT at least once and issues at most `4·k` transactions (at most `k` CTRL/STAT reads of `RDDI_DAP_ReadDP`, each with its retry and ABORT writes), keeps the cache, and returns a code of this layer |
| PowerProps.PollSpendsBudget | RDDI/Example/RDDI_DAP_IF.cpp:1497-1502 | a poll that ends without error and without both acknowledge bits has issued at least `k` CTRL/STAT reads |
| PowerProps.DebugInitSpendsBudget | RDDI/Example/RDDI_DAP_IF.cpp:1490-1506 | ERROR_POWER comes only after the whole budget: at least `polls` CTRL/STAT reads were issued |
| PowerProps.WritesShape | RDDI/Example/RDDI_DAP_IF.cpp:1513-1519 | the reset pulse, then the final CTRL/STAT write last |
| PowerProps.FinishShape | RDDI/Example/RDDI_DAP_IF.cpp:1508-1519 | the sticky clear on SW-DP, then the reset pulse, then the final write |
| PowerProps.DebugInitFrame | RDDI/Example/RDDI_DAP_IF.cpp:1485-1522 | DebugInit never changes the cache, only appends, and issues at most 17 + 4·polls transactions |
| PowerProps.Stages | RDDI/Example/RDDI_DAP_IF.cpp:1491-1506 | what each stage of DebugInit leaves behind |
| PowerProps.PowerFailure | RDDI/Example/RDDI_DAP_IF.cpp:1504-1506 | ERROR_POWER exactly when both writes and every read succeeded but the last value lacks an acknowledge bit |
| PowerProps.PoweredUp | RDDI/Example/RDDI_DAP_IF.cpp:1485-1522 | a successful DebugInit wrote SELECT = 0, requested power-up, saw both acks, cleared sticky flags on SW-DP, pulsed the reset request and wrote the final value last |
| PowerProps.NoSession | RDDI/Example/RDDI_DAP_IF.cpp:1485-1522 | without a session nothing is issued |
| PowerProps.FinalCtrlBits | RDDI/Example/RDDI_DAP_IF.cpp:1516-1519 | the final value keeps both power-up requests, releases the reset request, enables all lanes in normal mode, and sets the sticky bits only on JTAG |

## Left out

- The DLL glue (RDDI/Example/RDDI_DAP_IF.cpp:65-324) loads the RDDI library and opens and closes the connection. It is replaced by the `handle` flag of `Config` and by the reply oracle.
- `RDDI_DAP_Target` (RDDI/Example/RDDI_DAP_IF.cpp:1471-1480) is not part of this model. It only picks a target and calls into the library.
- The internals of the RDDI primitives (`rddi_DAP_RegAccessBlock` and its siblings) are not modelled. Their replies are a parameter.
- The `GetTickCount` timeout of the power-up loop becomes a bound on the number of CTRL/STAT reads.
- The symbolic constants (APBANKSEL, the CSW fields, the CTRL/STAT flags, DBGKEY and others) come from a debug header that is not part of this model. Their values are taken from the ARM Debug Interface v5 and ARMv7-M register layouts.
- The register blocks are taken to be 21 DWORDs of core registers, and S0..S31 followed by FPSCR at index 32.
- RegSpec.GetEntry: the data word of a read entry is modelled as 0. In the source it is whatever the array held. In `RDDI_DAP_GetARMRegs` and `RDDI_DAP_SysCallRes`, `regData[2]` and `regData[3]` still hold DBG_Addr and AP_Sel|0x10 from the setup batch, and `regData[28]` of `RDDI_DAP_SysCallExec` is uninitialised. The probe does not read these words for a read. AccessSpec.ReadDataTxn likewise sends 0 as the data word of the DRW read, where the source leaves `regData[1]` as it was.
- After a block call, `regData` is taken to hold the reply's words, including entries past the list that were never sent.
- MemSpec.Transfer: the probe oracle holds no target memory, so the model states no write-then-read or verify-after-write round trip. What is stated is that a run returning 0 consumed exactly `nMany` bytes of the buffer from `*nAdr` upward (`MemProps.TransferOutcome`, `MemProps.OkTransfer`) and stored nothing outside them (`MemProps.EngineConfined`). That each step addresses `*nAdr` = start address + buffer offset holds by construction (`MemSpec.Adr`); no lemma relates the TAR or narrow addresses in the log to the offsets.
- RegFile.SysCallRes: on failure the model hands back 0, whereas the source leaves `*rval` unchanged.
- Session.Dap.ReadDP, Session.Dap.ReadAP, Session.Dap.ReadData and Session.Dap.ReadD32/ReadD16/ReadD8: the value out-parameter is always written, also on failure. It is then 0, or the word of a failed reply. The source writes `*val` of `RDDI_DAP_ReadData` and the sized reads only on success (RDDI/Example/RDDI_DAP_IF.cpp:488-491, 541-543). `RDDI_DAP_ReadDP` and `RDDI_DAP_ReadAP` return before the primitive call without a handle or after a failed SELECT (RDDI/Example/RDDI_DAP_IF.cpp:422-427). After that call the library itself may have stored into `*val`. A caller only uses the value after a 0 return.
- The 32-bit mask of `RDDI_DAP_SysCallExec` is modelled as the 64-bit mask of the register lists; only its bits 0..16 are set.
- RegProps.WriteSelection states the selection word only in its OR form. It does not state that clearing REGWnR gives back the read selector.
- Update in place of the caller's register blocks is modelled with separate arrays. The case where `regs` and `rfpu` alias is excluded by a precondition.
