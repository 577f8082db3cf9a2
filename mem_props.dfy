/**
 * Properties of the unaligned memory engine of RDDI_DAP_ReadARMMem,
 * RDDI_DAP_WriteARMMem and RDDI_DAP_VerifyARMMem, proved about MemSpec and
 * so, through the contracts of the Memory methods, about the methods.
 */
module MemProps {
  import opened DapTypes
  import opened Lanes
  import A = AccessSpec
  import opened MemSpec

  /**
   * A transfer that succeeds has moved `pB` on by exactly `nMany` (and so
   * `*nAdr`, which is the start address plus `pB`'s offset in 32-bit
   * arithmetic) and consumed every byte, and returns 0; one that
   * returns 0 without finishing is a verify that found a mismatch, and has
   * stopped at the start of a chunk with at least a word still unconsumed,
   * so `*nAdr != adr + nMany` tells it from a match.  No byte of the buffer
   * past the `nMany` transferred is touched, and a write changes none.
   */
  lemma TransferOutcome(c: Config, o: Oracle, k: Kind, s: A.St, adr: Addr, buf: seq<bv8>, nMany: nat)
    requires ValidConfig(c) && nMany <= |buf|
    ensures var r := Transfer(c, o, k, s, adr, buf, nMany);
      && |r.m.buf| == |buf| && r.m.base == adr
      && (r.Go? ==> RunStatus(r) == 0 && r.m.pos == nMany && r.m.left == 0)
      && (r.Halt? && r.status == 0 ==> k == VerifyMem)
      && (r.Halt? ==> r.m.pos + r.m.left == nMany)
      && (r.Halt? && r.status == 0 ==> r.m.pos + 4 <= nMany)
      && r.m.buf[nMany..] == buf[nMany..]
      && (k == WriteMem ==> r.m.buf == buf)
  {
    EngineConfined(c, o, k, Mem(s, adr, buf, 0, nMany));
    var r := Transfer(c, o, k, s, adr, buf, nMany);
    assert r.m.buf[nMany..] == buf[nMany..] by {
      assert forall i :: 0 <= i < |buf| - nMany ==> r.m.buf[nMany..][i] == r.m.buf[nMany + i];
      assert forall i :: 0 <= i < |buf| - nMany ==> buf[nMany..][i] == buf[nMany + i];
    }
  }

  /**
   * When `*nAdr` is already word aligned the leading phase issues no
   * access at all: the byte and halfword steps are skipped.
   */
  lemma LeadSkipsAligned(c: Config, o: Oracle, k: Kind, m: Mem)
    requires Fits(m) && Adr(m) % 4 == 0
    ensures Lead(c, o, k, m) == Go(m)
  {
    LowBits(Adr(m));
    assert Adr(m) % 2 == 0;
  }

  /**
   * Every chunk of the `while (nMany >= 4)` loop stays inside one RWPage
   * window and meets the preconditions of the block transfers, so none of
   * them is refused with ERROR_INTERNAL.
   */
  lemma ChunksNeverRefused(c: Config, adr: Addr, left: nat)
    requires ValidConfig(c) && adr % 4 == 0 && left >= 4
    ensures var n := ChunkSize(c.rwPage, adr, left);
      A.BlockOk(c, n) && adr % c.rwPage + n <= c.rwPage
  {
    ChunkFits(c, adr, left);
  }

  /**
   * A chunk whose block transfer fails with ERROR_MEMORY is redone over the
   * same `n` bytes from the same place, word by word, followed by exactly
   * one sticky-error check; if that and every word succeed the engine goes
   * on after the chunk.
   */
  lemma MemoryErrorFallsBack(c: Config, o: Oracle, k: Kind, m: Mem, n: nat)
    requires 4 <= n <= m.left && n % 4 == 0 && Fits(m)
    requires Block(c, o, k, m, n).status == RDDI_DAP_ERROR_MEMORY
    ensures var b := Block(c, o, k, m, n);
      var r := Chunk(c, o, k, m, n);
      && b.m.pos == m.pos && b.m.left == m.left
      && r == Fallback(c, o, k, b.m, n)
      && (Slow(c, o, k, b.m, n).Go? ==>
            var s := Slow(c, o, k, b.m, n);
            s.m.pos == m.pos + n &&
            r == Check(A.Sticky(c, o, s.m.st).status, s.m.(st := A.Sticky(c, o, s.m.st).st)))
  {
  }

  /**
   * A verify chunk that finds a mismatch reads that chunk back into the
   * buffer and returns the read's status (0 when it succeeded), leaving
   * `*nAdr` at the chunk's start.
   */
  lemma MismatchReadsBack(c: Config, o: Oracle, m: Mem, n: nat)
    requires 4 <= n <= m.left && n % 4 == 0 && Fits(m)
    requires Block(c, o, VerifyMem, m, n).status == VERIFY_MISMATCH
    ensures var b := Block(c, o, VerifyMem, m, n);
      var x := A.ReadBlock(c, o, b.m.st, Adr(b.m), n);
      var r := Chunk(c, o, VerifyMem, m, n);
      && r.Halt? && r.status == x.status
      && r.m.pos == m.pos && r.m.base == m.base && b.m.pos == m.pos && b.m.base == m.base
      && r.m.buf == Splice(m.buf, m.pos, WordsBytes(x.words))
  {
  }

  // ---------------------------------------------------------------------
  // A primitive that never fails

  /** Every call succeeds and every word it hands back is 0 (so CTRL/STAT shows no flag). */
  ghost predicate AllOk(o: Oracle) {
    forall i :: o(i) == Reply(0, [])
  }

  lemma OkChecked(c: Config, o: Oracle, s: A.St, t: Txn, i: nat)
    requires c.handle && AllOk(o)
    ensures A.Checked(c, o, s, t, i) == A.Out(0, A.Append(s, t), 0)
  {
    assert o(|s.log|) == Reply(0, []);
  }

  lemma OkDP(c: Config, o: Oracle, s: A.St, t: Txn)
    requires c.handle && AllOk(o)
    ensures A.DPAccess(c, o, s, t) == A.Out(0, A.Append(s, t), 0)
  {
    OkChecked(c, o, s, t, 0);
  }

  lemma OkAP(c: Config, o: Oracle, s: A.St, adr: bv8, t: Txn)
    requires c.handle && AllOk(o)
    ensures A.APAccess(c, o, s, adr, t).status == 0
  {
    OkDP(c, o, s, RegWrite(DpId(DP_SELECT), A.SelectValue(c, Bank(adr))));
    var s1 := A.Append(s, RegWrite(DpId(DP_SELECT), A.SelectValue(c, Bank(adr))));
    OkChecked(c, o, s1.(sh := s1.sh.(apBank := Bank(adr))), t, 0);
    OkChecked(c, o, s, t, 0);
  }

  lemma OkSetup(c: Config, o: Oracle, s: A.St, mask: bv32, want: bv32)
    requires c.handle && AllOk(o)
    ensures A.BankZero(c, o, s).status == 0
    ensures A.SetCsw(c, o, s, mask, want).status == 0
  {
    OkDP(c, o, s, RegWrite(DpId(DP_SELECT), A.SelectValue(c, 0)));
    var v := A.CswWith(s.sh.csw, mask, want);
    OkAP(c, o, s.(sh := s.sh.(csw := v)), AP_CSW, RegWrite(ApId(AP_CSW), v));
  }

  lemma OkSized(c: Config, o: Oracle, s: A.St, size: bv32, adr: Addr, word: bv32)
    requires c.handle && AllOk(o)
    ensures A.SizedRead(c, o, s, size, adr).status == 0
    ensures A.SizedWrite(c, o, s, size, adr, word).status == 0
  {
    OkSetup(c, o, s, CSW_SIZE, size);
    var b := A.BankZero(c, o, s);
    OkSetup(c, o, b.st, CSW_SIZE, size);
    var w := A.SizeSetup(c, o, s, size);
    OkChecked(c, o, w.st, A.ReadDataTxn(adr), 1);
    OkChecked(c, o, w.st, A.WriteDataTxn(adr, word), 0);
  }

  lemma OkSticky(c: Config, o: Oracle, s: A.St)
    requires c.handle && AllOk(o)
    ensures A.Sticky(c, o, s).status == 0
  {
    OkDP(c, o, s, RegRead(DpId(DP_CTRL_STAT)));
  }

  lemma OkBlockSetup(c: Config, o: Oracle, s: A.St, adr: Addr)
    requires c.handle && AllOk(o)
    ensures A.BlockSetup(c, o, s, adr).status == 0
  {
    OkSetup(c, o, s, A.BLOCK_CSW_MASK, A.BLOCK_CSW);
    var b := A.BankZero(c, o, s);
    OkSetup(c, o, b.st, A.BLOCK_CSW_MASK, A.BLOCK_CSW);
    var w := A.SetCsw(c, o, b.st, A.BLOCK_CSW_MASK, A.BLOCK_CSW);
    OkAP(c, o, w.st, AP_TAR, RegWrite(ApId(AP_TAR), adr as bv32));
  }

  lemma OkReadBlock(c: Config, o: Oracle, s: A.St, adr: Addr, n: nat)
    requires c.handle && AllOk(o) && A.BlockOk(c, n)
    ensures A.ReadBlock(c, o, s, adr, n).status == 0
  {
    OkBlockSetup(c, o, s, adr);
    var b := A.BlockSetup(c, o, s, adr);
    assert o(|b.st.log|) == Reply(0, []);
    OkSticky(c, o, A.Append(b.st, ReadRepeat(n / 4, DAP_AP_REG_DRW)));
  }

  lemma OkWriteBlock(c: Config, o: Oracle, s: A.St, adr: Addr, bs: seq<bv8>)
    requires c.handle && AllOk(o) && A.BlockOk(c, |bs|)
    ensures A.WriteBlock(c, o, s, adr, bs).status == 0
  {
    OkBlockSetup(c, o, s, adr);
    var b := A.BlockSetup(c, o, s, adr);
    assert o(|b.st.log|) == Reply(0, []);
    OkSticky(c, o, A.Append(b.st, A.WriteRepeatTxn(bs)));
  }

  lemma OkVerifyBlock(c: Config, o: Oracle, s: A.St, adr: Addr, bs: seq<bv8>)
    requires c.handle && AllOk(o) && A.BlockOk(c, |bs|)
    ensures A.VerifyBlock(c, o, s, adr, bs).status == 0
  {
    OkBlockSetup(c, o, s, adr);
    var b := A.BlockSetup(c, o, s, adr);
    OkDP(c, o, b.st, RegRead(DpId(DP_CTRL_STAT)));
    var d := A.ReadDP(c, o, b.st, DP_CTRL_STAT);
    OkDP(c, o, d.st, RegWrite(DpId(DP_CTRL_STAT), A.CompareMode(d.value)));
    var w := A.WriteDP(c, o, d.st, DP_CTRL_STAT, A.CompareMode(d.value));
    var s2 := A.Append(w.st, A.WriteRepeatTxn(bs));
    assert o(|w.st.log|) == Reply(0, []);
    OkDP(c, o, s2, RegRead(DpId(DP_CTRL_STAT)));
    var p := A.VerifyOutcome(c, o, s2, o(|w.st.log|), A.CompareMode(d.value));
    OkDP(c, o, p.st, RegWrite(DpId(DP_CTRL_STAT), A.NoTrn(p.val)));
  }

  lemma OkNarrow(c: Config, o: Oracle, k: Kind, m: Mem, w: nat)
    requires c.handle && AllOk(o)
    requires w == 1 || w == 2
    requires w <= m.left && Fits(m)
    ensures Narrow(c, o, k, m, w).Go?
  {
    var adr := Adr(m);
    OkSized(c, o, m.st, if w == 1 then CSW_SIZE8 else CSW_SIZE16, adr,
      if w == 1 then PlaceByte(m.buf[m.pos], adr) else PlaceHalf(BytesHalf(m.buf[m.pos..m.pos + 2]), adr));
    OkSized(c, o, m.st, if w == 1 then CSW_SIZE8 else CSW_SIZE16, adr, 0);
    var x := NarrowXfer(c, o, k, m, w);
    OkSticky(c, o, x.m.st);
  }

  lemma OkBlock(c: Config, o: Oracle, k: Kind, m: Mem, n: nat)
    requires c.handle && AllOk(o)
    requires n <= m.left && Fits(m) && A.BlockOk(c, n)
    ensures Block(c, o, k, m, n).status == 0
  {
    match k
    case ReadMem => OkReadBlock(c, o, m.st, Adr(m), n);
    case WriteMem => OkWriteBlock(c, o, m.st, Adr(m), m.buf[m.pos..m.pos + n]);
    case VerifyMem => OkVerifyBlock(c, o, m.st, Adr(m), m.buf[m.pos..m.pos + n]);
  }

  /** A chunk whose block transfer succeeds moves the engine on by the chunk. */
  lemma ChunkAfterBlock(c: Config, o: Oracle, k: Kind, m: Mem, n: nat)
    requires 4 <= n <= m.left && n % 4 == 0 && Fits(m)
    requires Block(c, o, k, m, n).status == 0
    ensures Chunk(c, o, k, m, n) == Go(Advance(Block(c, o, k, m, n).m, n))
  {
  }

  lemma OkChunk(c: Config, o: Oracle, k: Kind, m: Mem, n: nat)
    requires c.handle && AllOk(o)
    requires 4 <= n <= m.left && n % 4 == 0 && Fits(m) && A.BlockOk(c, n)
    ensures Chunk(c, o, k, m, n).Go?
  {
    OkBlock(c, o, k, m, n);
    ChunkAfterBlock(c, o, k, m, n);
  }

  lemma {:induction false} OkChunks(c: Config, o: Oracle, k: Kind, m: Mem)
    requires c.handle && AllOk(o) && ValidConfig(c) && Fits(m)
    requires m.left >= 4 ==> Adr(m) % 4 == 0
    ensures Chunks(c, o, k, m).Go?
    decreases m.left
  {
    if m.left >= 4 {
      var n := ChunkSize(c.rwPage, Adr(m), m.left);
      ChunkFits(c, Adr(m), m.left);
      OkChunk(c, o, k, m, n);
      var m1 := Chunk(c, o, k, m, n).m;
      WordStep(m, m1, n);
      OkChunks(c, o, k, m1);
    }
  }

  lemma OkLead(c: Config, o: Oracle, k: Kind, m: Mem)
    requires c.handle && AllOk(o) && Fits(m)
    ensures Lead(c, o, k, m).Go?
  {
    if Adr(m) % 2 == 1 && m.left > 0 {
      OkNarrow(c, o, k, m, 1);
    }
    var r1 := if Adr(m) % 2 == 1 && m.left > 0 then Narrow(c, o, k, m, 1) else Go(m);
    if Adr(r1.m) % 4 >= 2 && r1.m.left >= 2 {
      OkNarrow(c, o, k, r1.m, 2);
    }
  }

  lemma OkTrail(c: Config, o: Oracle, k: Kind, m: Mem)
    requires c.handle && AllOk(o) && Fits(m) && m.left < 4
    ensures Trail(c, o, k, m).Go?
  {
    if m.left >= 2 {
      OkNarrow(c, o, k, m, 2);
    }
    var r1 := if m.left >= 2 then Narrow(c, o, k, m, 2) else Go(m);
    if r1.m.left > 0 {
      OkNarrow(c, o, k, r1.m, 1);
    }
  }

  /**
   * With a primitive that accepts every call and never reports a flag in
   * CTRL/STAT, every read, write and verify of any length at any address
   * completes: none of the phases stops the engine.
   */
  lemma OkTransfer(c: Config, o: Oracle, k: Kind, s: A.St, adr: Addr, buf: seq<bv8>, nMany: nat)
    requires c.handle && AllOk(o) && ValidConfig(c) && nMany <= |buf|
    ensures var r := Transfer(c, o, k, s, adr, buf, nMany);
      r.Go? && r.m.pos == nMany
  {
    var m := Mem(s, adr, buf, 0, nMany);
    OkLead(c, o, k, m);
    var l := Lead(c, o, k, m);
    OkChunks(c, o, k, l.m);
    OkTrail(c, o, k, Chunks(c, o, k, l.m).m);
  }

  // ---------------------------------------------------------------------
  // The buffer outside the bytes still to transfer

  /** Frames compose along a cursor that moves forward. */
  lemma ConfinedTrans(m: Mem, m1: Mem, m2: Mem)
    requires Progressed(m, m1) && Confined(m, m1) && Confined(m1, m2)
    ensures Confined(m, m2)
  {
  }

  /** A narrow step stores at most its own `w` bytes at `pB`. */
  lemma NarrowConfined(c: Config, o: Oracle, k: Kind, m: Mem, w: nat)
    requires (w == 1 || w == 2) && w <= m.left && Fits(m)
    ensures Confined(m, Narrow(c, o, k, m, w).m)
  {
    var x := NarrowXfer(c, o, k, m, w);
    assert Confined(m, x.m);
  }

  lemma LeadConfined(c: Config, o: Oracle, k: Kind, m: Mem)
    requires Fits(m)
    ensures Confined(m, Lead(c, o, k, m).m)
  {
    var r1 := if Adr(m) % 2 == 1 && m.left > 0 then Narrow(c, o, k, m, 1) else Go(m);
    if Adr(m) % 2 == 1 && m.left > 0 {
      NarrowConfined(c, o, k, m, 1);
    }
    var m1 := r1.m;
    if r1.Go? && Adr(m1) % 4 >= 2 && m1.left >= 2 {
      NarrowConfined(c, o, k, m1, 2);
      ConfinedTrans(m, m1, Narrow(c, o, k, m1, 2).m);
    }
  }

  lemma TrailConfined(c: Config, o: Oracle, k: Kind, m: Mem)
    requires Fits(m) && m.left < 4
    ensures Confined(m, Trail(c, o, k, m).m)
  {
    var r1 := if m.left >= 2 then Narrow(c, o, k, m, 2) else Go(m);
    if m.left >= 2 {
      NarrowConfined(c, o, k, m, 2);
    }
    if r1.Go? && r1.m.left > 0 {
      NarrowConfined(c, o, k, r1.m, 1);
      ConfinedTrans(m, r1.m, Narrow(c, o, k, r1.m, 1).m);
    }
  }

  lemma {:induction false} SlowConfined(c: Config, o: Oracle, k: Kind, m: Mem, n: nat)
    requires n <= m.left && Fits(m)
    ensures Confined(m, Slow(c, o, k, m, n).m)
    decreases n
  {
    if n >= 4 {
      var w := Word32(c, o, k, m);
      assert Confined(m, w.m);
      if w.Go? {
        SlowConfined(c, o, k, w.m, n - 4);
        ConfinedTrans(m, w.m, Slow(c, o, k, w.m, n - 4).m);
      }
    }
  }

  /** A chunk stores at most into its own `n` bytes. */
  lemma ChunkConfined(c: Config, o: Oracle, k: Kind, m: Mem, n: nat)
    requires 4 <= n <= m.left && n % 4 == 0 && Fits(m)
    ensures Confined(m, Chunk(c, o, k, m, n).m)
  {
    var b := Block(c, o, k, m, n);
    assert Confined(m, b.m);
    if k == VerifyMem && b.status == VERIFY_MISMATCH {
      assert Confined(b.m, ReadBack(c, o, b.m, n).m);
    } else if b.status == RDDI_DAP_ERROR_MEMORY {
      SlowConfined(c, o, k, b.m, n);
      ConfinedTrans(b.m, Slow(c, o, k, b.m, n).m, Fallback(c, o, k, b.m, n).m);
    }
  }

  lemma {:induction false} ChunksConfined(c: Config, o: Oracle, k: Kind, m: Mem)
    requires ValidConfig(c) && Fits(m)
    requires m.left >= 4 ==> Adr(m) % 4 == 0
    ensures Confined(m, Chunks(c, o, k, m).m)
    decreases m.left
  {
    if m.left >= 4 {
      var n := ChunkSize(c.rwPage, Adr(m), m.left);
      ChunkFits(c, Adr(m), m.left);
      ChunkConfined(c, o, k, m, n);
      var r := Chunk(c, o, k, m, n);
      if r.Go? {
        WordStep(m, r.m, n);
        ChunksConfined(c, o, k, r.m);
        ConfinedTrans(m, r.m, Chunks(c, o, k, r.m).m);
      }
    }
  }

  /** The whole engine stores only into `buf[pos..pos + nMany]`. */
  lemma EngineConfined(c: Config, o: Oracle, k: Kind, m: Mem)
    requires ValidConfig(c) && Fits(m)
    ensures Confined(m, Engine(c, o, k, m).m)
  {
    LeadConfined(c, o, k, m);
    var l := Lead(c, o, k, m);
    if l.Go? {
      ChunksConfined(c, o, k, l.m);
      var h := Chunks(c, o, k, l.m);
      ConfinedTrans(m, l.m, h.m);
      if h.Go? {
        TrailConfined(c, o, k, h.m);
        ConfinedTrans(m, h.m, Trail(c, o, k, h.m).m);
      }
    }
  }
}
