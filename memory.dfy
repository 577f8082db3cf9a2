/**
 * RDDI_DAP_ReadARMMem, RDDI_DAP_WriteARMMem and RDDI_DAP_VerifyARMMem on a
 * session object and the caller's byte buffer.  `pB` is the offset `pos`
 * into `buf`, `nMany` is `left`, and `*nAdr` is the start address plus
 * `pos` in 32-bit arithmetic.  Each phase is proved to do exactly what the
 * function of the same name in MemSpec says, so the properties proved there
 * hold of these methods.
 */
module Memory {
  import opened DapTypes
  import opened Lanes
  import opened Session
  import A = AccessSpec
  import M = MemSpec

  /** One 8- or 16-bit access at `*nAdr`; a read stores what it extracted at `pB`. */
  method NarrowXfer(d: Dap, k: M.Kind, base: Addr, buf: array<bv8>, pos: nat, left: nat, w: nat, ghost m: M.Mem)
    returns (status: int)
    requires w == 1 || w == 2
    requires w <= left && pos + left <= buf.Length
    requires m == M.Mem(d.State(), base, buf[..], pos, left)
    modifies d, d.probe, buf
    ensures var r := M.NarrowXfer(d.cfg, d.probe.respond, k, m, w);
      status == M.RunStatus(r) && d.State() == r.m.st && buf[..] == r.m.buf
  {
    if k == M.WriteMem {
      status := NarrowWrite(d, k, base, buf, pos, left, w, m);
    } else {
      status := NarrowRead(d, k, base, buf, pos, left, w, m);
    }
  }

  /** RDDI_DAP_WriteD8 or RDDI_DAP_WriteD16 of the byte or halfword at `pB`. */
  method NarrowWrite(d: Dap, k: M.Kind, base: Addr, buf: array<bv8>, pos: nat, left: nat, w: nat, ghost m: M.Mem)
    returns (status: int)
    requires k == M.WriteMem
    requires w == 1 || w == 2
    requires w <= left && pos + left <= buf.Length
    requires m == M.Mem(d.State(), base, buf[..], pos, left)
    modifies d, d.probe
    ensures var r := M.NarrowXfer(d.cfg, d.probe.respond, k, m, w);
      status == M.RunStatus(r) && d.State() == r.m.st && buf[..] == r.m.buf
  {
    ghost var c, o := d.cfg, d.probe.respond;
    var adr := Wrap(base + pos);
    assert M.Adr(m) == adr && m.st == d.State() && m.buf == buf[..];
    ghost var x := if w == 1 then A.WriteD8(c, o, m.st, adr, buf[pos])
                   else A.WriteD16(c, o, m.st, adr, BytesHalf(buf[pos..pos + 2]));
    assert M.NarrowXfer(c, o, k, m, w) == M.Check(x.status, m.(st := x.st));
    if w == 1 {
      status := d.WriteD8(adr, buf[pos]);
    } else {
      status := d.WriteD16(adr, BytesHalf(buf[pos..pos + 2]));
    }
  }

  /** RDDI_DAP_ReadD8 or RDDI_DAP_ReadD16, storing the value at `pB` when it succeeds. */
  method NarrowRead(d: Dap, k: M.Kind, base: Addr, buf: array<bv8>, pos: nat, left: nat, w: nat, ghost m: M.Mem)
    returns (status: int)
    requires k != M.WriteMem
    requires w == 1 || w == 2
    requires w <= left && pos + left <= buf.Length
    requires m == M.Mem(d.State(), base, buf[..], pos, left)
    modifies d, d.probe, buf
    ensures var r := M.NarrowXfer(d.cfg, d.probe.respond, k, m, w);
      status == M.RunStatus(r) && d.State() == r.m.st && buf[..] == r.m.buf
  {
    ghost var c, o := d.cfg, d.probe.respond;
    var adr := Wrap(base + pos);
    assert M.Adr(m) == adr && m.st == d.State() && m.buf == buf[..];
    ghost var x := A.SizedRead(c, o, m.st, if w == 1 then CSW_SIZE8 else CSW_SIZE16, adr);
    ghost var bytes := if w == 1 then [ExtractByte(x.value, adr)] else HalfBytes(ExtractHalf(x.value, adr));
    assert M.NarrowXfer(c, o, k, m, w) ==
      if x.status != 0 then M.Halt(x.status, m.(st := x.st))
      else M.Go(m.(st := x.st, buf := Splice(m.buf, pos, bytes)));
    if w == 1 {
      var b;
      status, b := d.ReadD8(adr);
      if status == 0 {
        Dap.StoreBytes(buf, pos, [b]);
      }
    } else {
      var h;
      status, h := d.ReadD16(adr);
      if status == 0 {
        Dap.StoreBytes(buf, pos, HalfBytes(h));
      }
    }
  }

  /** A narrow access followed by RDDI_DAP_StickyError; `pB` moves on by `w` if both succeed. */
  method Narrow(d: Dap, k: M.Kind, base: Addr, buf: array<bv8>, pos: nat, left: nat, w: nat, ghost m: M.Mem)
    returns (status: int, stop: bool, p: nat)
    requires w == 1 || w == 2
    requires w <= left && pos + left <= buf.Length
    requires m == M.Mem(d.State(), base, buf[..], pos, left)
    modifies d, d.probe, buf
    ensures var r := M.Narrow(d.cfg, d.probe.respond, k, m, w);
      stop == r.Halt? && status == M.RunStatus(r) && p == r.m.pos && d.State() == r.m.st && buf[..] == r.m.buf
  {
    status := NarrowXfer(d, k, base, buf, pos, left, w, m);
    ghost var m1 := M.Mem(d.State(), base, buf[..], pos, left);
    assert m1.st == d.State() && m1.buf == buf[..] && m1.base == base && m1.pos == pos && m1.left == left;
    if status != 0 {
      assert M.Narrow(d.cfg, d.probe.respond, k, m, w) == M.Halt(status, m1);
      return status, true, pos;
    }
    assert M.NarrowXfer(d.cfg, d.probe.respond, k, m, w) == M.Go(m1);
    status := d.StickyError();
    if status != 0 {
      return status, true, pos;
    }
    return 0, false, pos + w;
  }

  /** The leading byte and halfword until `*nAdr` is 4-aligned. */
  method Lead(d: Dap, k: M.Kind, base: Addr, buf: array<bv8>, left: nat, ghost m: M.Mem)
    returns (status: int, stop: bool, p: nat)
    requires left <= buf.Length
    requires m == M.Mem(d.State(), base, buf[..], 0, left)
    modifies d, d.probe, buf
    ensures var r := M.Lead(d.cfg, d.probe.respond, k, m);
      stop == r.Halt? && status == M.RunStatus(r) && p == r.m.pos && d.State() == r.m.st && buf[..] == r.m.buf
  {
    ghost var c, o := d.cfg, d.probe.respond;
    AdrAt(m, base, 0);
    ghost var r1 := M.Go(m);
    p := 0;
    if Wrap(base) % 2 == 1 && left > 0 {
      status, stop, p := Narrow(d, k, base, buf, 0, left, 1, m);
      r1 := M.Narrow(c, o, k, m, 1);
      if stop {
        assert M.Lead(c, o, k, m) == r1;
        return;
      }
    }
    assert r1.Go? && r1.m == M.Mem(d.State(), base, buf[..], p, left - p);
    ghost var m1 := r1.m;
    AdrAt(m1, base, p);
    if Wrap(base + p) % 4 >= 2 && left - p >= 2 {
      ghost var r2 := M.Narrow(c, o, k, m1, 2);
      assert M.Lead(c, o, k, m) == r2;
      status, stop, p := Narrow(d, k, base, buf, p, left - p, 2, m1);
      return;
    }
    assert M.Lead(c, o, k, m) == r1;
    return 0, false, p;
  }

  /** The trailing halfword and byte once fewer than four bytes are left. */
  method Trail(d: Dap, k: M.Kind, base: Addr, buf: array<bv8>, pos: nat, left: nat, ghost m: M.Mem)
    returns (status: int, stop: bool, p: nat)
    requires left < 4 && pos + left <= buf.Length
    requires m == M.Mem(d.State(), base, buf[..], pos, left)
    modifies d, d.probe, buf
    ensures var r := M.Trail(d.cfg, d.probe.respond, k, m);
      stop == r.Halt? && status == M.RunStatus(r) && p == r.m.pos && d.State() == r.m.st && buf[..] == r.m.buf
  {
    ghost var c, o := d.cfg, d.probe.respond;
    ghost var r1 := M.Go(m);
    p := pos;
    if left >= 2 {
      status, stop, p := Narrow(d, k, base, buf, pos, left, 2, m);
      r1 := M.Narrow(c, o, k, m, 2);
      if stop {
        assert M.Trail(c, o, k, m) == r1;
        return;
      }
    }
    assert r1.Go? && r1.m == M.Mem(d.State(), base, buf[..], p, pos + left - p);
    if pos + left - p > 0 {
      ghost var m1 := r1.m;
      assert M.Trail(c, o, k, m) == M.Narrow(c, o, k, m1, 1);
      status, stop, p := Narrow(d, k, base, buf, p, pos + left - p, 1, m1);
      return;
    }
    assert M.Trail(c, o, k, m) == r1;
    return 0, false, p;
  }

  /** One RDDI_DAP_ReadD32 or RDDI_DAP_WriteD32 of the word-by-word fallback. */
  method Word32(d: Dap, k: M.Kind, base: Addr, buf: array<bv8>, pos: nat, left: nat, ghost m: M.Mem)
    returns (status: int, stop: bool, p: nat)
    requires 4 <= left && pos + left <= buf.Length
    requires m == M.Mem(d.State(), base, buf[..], pos, left)
    modifies d, d.probe, buf
    ensures var r := M.Word32(d.cfg, d.probe.respond, k, m);
      stop == r.Halt? && status == M.RunStatus(r) && p == r.m.pos && d.State() == r.m.st && buf[..] == r.m.buf
  {
    var adr := Wrap(base + pos);
    AdrAt(m, base, pos);
    if k == M.WriteMem {
      status := d.WriteD32(adr, BytesWord(buf[pos..pos + 4]));
    } else {
      var v;
      status, v := d.ReadD32(adr);
      if status == 0 {
        Dap.StoreBytes(buf, pos, WordBytes(v));
      }
    }
    if status != 0 {
      return status, true, pos;
    }
    return 0, false, pos + 4;
  }

  /** The `while (n)` loop of the word-by-word fallback over the `n` bytes of a chunk. */
  method Slow(d: Dap, k: M.Kind, base: Addr, buf: array<bv8>, pos: nat, left: nat, n: nat, ghost m: M.Mem)
    returns (status: int, stop: bool, p: nat)
    requires n <= left && pos + left <= buf.Length
    requires m == M.Mem(d.State(), base, buf[..], pos, left)
    modifies d, d.probe, buf
    ensures var r := M.Slow(d.cfg, d.probe.respond, k, m, n);
      stop == r.Halt? && status == M.RunStatus(r) && p == r.m.pos && d.State() == r.m.st && buf[..] == r.m.buf
  {
    ghost var c, o := d.cfg, d.probe.respond;
    p := pos;
    var rest: nat := n;
    ghost var cur := m;
    while rest >= 4
      invariant p + rest == pos + n
      invariant cur == M.Mem(d.State(), base, buf[..], p, pos + left - p)
      invariant M.Slow(c, o, k, cur, rest) == M.Slow(c, o, k, m, n)
      decreases rest
    {
      ghost var r := M.Word32(c, o, k, cur);
      var q;
      status, stop, q := Word32(d, k, base, buf, p, pos + left - p, cur);
      if stop {
        assert M.Slow(c, o, k, cur, rest) == r;
        return status, true, q;
      }
      cur := r.m;
      p, rest := q, rest - 4;
    }
    assert M.Slow(c, o, k, cur, rest) == M.Go(cur);
    return 0, false, p;
  }

  /** After ERROR_MEMORY: the chunk word by word, then one RDDI_DAP_StickyError. */
  method Fallback(d: Dap, k: M.Kind, base: Addr, buf: array<bv8>, pos: nat, left: nat, n: nat, ghost m: M.Mem)
    returns (status: int, stop: bool, p: nat)
    requires 4 <= n <= left && n % 4 == 0 && pos + left <= buf.Length
    requires m == M.Mem(d.State(), base, buf[..], pos, left)
    modifies d, d.probe, buf
    ensures var r := M.Fallback(d.cfg, d.probe.respond, k, m, n);
      stop == r.Halt? && status == M.RunStatus(r) && p == r.m.pos && d.State() == r.m.st && buf[..] == r.m.buf
  {
    ghost var c, o := d.cfg, d.probe.respond;
    ghost var s := M.Slow(c, o, k, m, n);
    status, stop, p := Slow(d, k, base, buf, pos, left, n, m);
    if stop {
      assert M.Fallback(c, o, k, m, n) == s;
      return;
    }
    assert s.m == M.Mem(d.State(), base, buf[..], p, pos + left - p);
    status := d.StickyError();
    assert M.Fallback(c, o, k, m, n) == M.Check(status, M.Mem(d.State(), base, buf[..], p, pos + left - p));
    stop := status != 0;
  }

  /** RDDI_DAP_ReadBlock, RDDI_DAP_WriteBlock or RDDI_DAP_VerifyBlock over the `n` bytes at `pB`. */
  method Block(d: Dap, k: M.Kind, base: Addr, buf: array<bv8>, pos: nat, left: nat, n: nat, ghost m: M.Mem)
    returns (status: int)
    requires n <= left && pos + left <= buf.Length
    requires m == M.Mem(d.State(), base, buf[..], pos, left)
    modifies d, d.probe, buf
    ensures var b := M.Block(d.cfg, d.probe.respond, k, m, n);
      status == b.status && d.State() == b.m.st && buf[..] == b.m.buf
  {
    match k
    case ReadMem => status := ReadBlock(d, base, buf, pos, left, n, m);
    case WriteMem => status := WriteBlock(d, base, buf, pos, left, n, m);
    case VerifyMem => status := VerifyBlock(d, base, buf, pos, left, n, m);
  }

  method ReadBlock(d: Dap, base: Addr, buf: array<bv8>, pos: nat, left: nat, n: nat, ghost m: M.Mem)
    returns (status: int)
    requires n <= left && pos + left <= buf.Length
    requires m == M.Mem(d.State(), base, buf[..], pos, left)
    modifies d, d.probe, buf
    ensures var b := M.Block(d.cfg, d.probe.respond, M.ReadMem, m, n);
      status == b.status && d.State() == b.m.st && buf[..] == b.m.buf
  {
    AdrAt(m, base, pos);
    status := d.ReadBlock(Wrap(base + pos), buf, pos, n);
  }

  method WriteBlock(d: Dap, base: Addr, buf: array<bv8>, pos: nat, left: nat, n: nat, ghost m: M.Mem)
    returns (status: int)
    requires n <= left && pos + left <= buf.Length
    requires m == M.Mem(d.State(), base, buf[..], pos, left)
    modifies d, d.probe
    ensures var b := M.Block(d.cfg, d.probe.respond, M.WriteMem, m, n);
      status == b.status && d.State() == b.m.st && buf[..] == b.m.buf
  {
    AdrAt(m, base, pos);
    status := d.WriteBlock(Wrap(base + pos), buf[pos..pos + n]);
  }

  method VerifyBlock(d: Dap, base: Addr, buf: array<bv8>, pos: nat, left: nat, n: nat, ghost m: M.Mem)
    returns (status: int)
    requires n <= left && pos + left <= buf.Length
    requires m == M.Mem(d.State(), base, buf[..], pos, left)
    modifies d, d.probe
    ensures var b := M.Block(d.cfg, d.probe.respond, M.VerifyMem, m, n);
      status == b.status && d.State() == b.m.st && buf[..] == b.m.buf
  {
    AdrAt(m, base, pos);
    status := d.VerifyBlock(Wrap(base + pos), buf[pos..pos + n]);
  }

  /** One pass of the `while (nMany >= 4)` loop over a chunk of `n` bytes. */
  method Chunk(d: Dap, k: M.Kind, base: Addr, buf: array<bv8>, pos: nat, left: nat, n: nat, ghost m: M.Mem)
    returns (status: int, stop: bool, p: nat)
    requires 4 <= n <= left && n % 4 == 0 && pos + left <= buf.Length
    requires m == M.Mem(d.State(), base, buf[..], pos, left)
    modifies d, d.probe, buf
    ensures var r := M.Chunk(d.cfg, d.probe.respond, k, m, n);
      stop == r.Halt? && status == M.RunStatus(r) && p == r.m.pos && d.State() == r.m.st && buf[..] == r.m.buf
  {
    ghost var c, o := d.cfg, d.probe.respond;
    ghost var b := M.Block(c, o, k, m, n);
    status := Block(d, k, base, buf, pos, left, n, m);
    assert b.m == M.Mem(d.State(), base, buf[..], pos, left);
    if k == M.VerifyMem && status == VERIFY_MISMATCH {
      AdrAt(b.m, base, pos);
      assert M.Chunk(c, o, k, m, n) == M.ReadBack(c, o, b.m, n);
      status := d.ReadBlock(Wrap(base + pos), buf, pos, n);
      return status, true, pos;
    }
    if status == RDDI_DAP_ERROR_MEMORY {
      assert M.Chunk(c, o, k, m, n) == M.Fallback(c, o, k, b.m, n);
      status, stop, p := Fallback(d, k, base, buf, pos, left, n, b.m);
      return;
    }
    assert M.Chunk(c, o, k, m, n) == if status != 0 then M.Halt(status, b.m) else M.Go(M.Advance(b.m, n));
    if status != 0 {
      return status, true, pos;
    }
    return 0, false, pos + n;
  }

  /** The `while (nMany >= 4)` loop: page-bounded chunks from a 4-aligned `*nAdr`. */
  method Chunks(d: Dap, k: M.Kind, base: Addr, buf: array<bv8>, pos: nat, left: nat, ghost m: M.Mem)
    returns (status: int, stop: bool, p: nat)
    requires ValidConfig(d.cfg) && pos + left <= buf.Length
    requires m == M.Mem(d.State(), base, buf[..], pos, left)
    requires left >= 4 ==> M.Adr(m) % 4 == 0
    modifies d, d.probe, buf
    ensures var r := M.Chunks(d.cfg, d.probe.respond, k, m);
      stop == r.Halt? && status == M.RunStatus(r) && p == r.m.pos && d.State() == r.m.st && buf[..] == r.m.buf
  {
    ghost var c, o := d.cfg, d.probe.respond;
    p := pos;
    var rest: nat := left;
    ghost var cur := m;
    while rest >= 4
      invariant p + rest == pos + left
      invariant cur == M.Mem(d.State(), base, buf[..], p, rest)
      invariant rest >= 4 ==> M.Adr(cur) % 4 == 0
      invariant M.Chunks(c, o, k, cur) == M.Chunks(c, o, k, m)
      decreases rest
    {
      AdrAt(cur, base, p);
      var n := M.ChunkSize(d.cfg.rwPage, Wrap(base + p), rest);
      M.ChunkFits(d.cfg, Wrap(base + p), rest);
      ghost var r := M.Chunk(c, o, k, cur, n);
      var q;
      status, stop, q := Chunk(d, k, base, buf, p, rest, n, cur);
      if stop {
        assert M.Chunks(c, o, k, cur) == r;
        return status, true, q;
      }
      M.WordStep(cur, r.m, n);
      cur := r.m;
      p, rest := q, rest - n;
    }
    assert M.Chunks(c, o, k, cur) == M.Go(cur);
    return 0, false, p;
  }

  /**
   * The common body of RDDI_DAP_ReadARMMem, RDDI_DAP_WriteARMMem and
   * RDDI_DAP_VerifyARMMem: `nMany` bytes of `buf` at `nAdr`.  `adr` is the
   * final `*nAdr`, which on an error is where the failing access started.
   */
  method Transfer(d: Dap, k: M.Kind, nAdr: Addr, buf: array<bv8>, nMany: nat) returns (status: int, adr: Addr)
    requires ValidConfig(d.cfg) && nMany <= buf.Length
    modifies d, d.probe, buf
    ensures var r := M.Transfer(d.cfg, d.probe.respond, k, old(d.State()), nAdr, old(buf[..]), nMany);
      status == M.RunStatus(r) && adr == M.Adr(r.m) && d.State() == r.m.st && buf[..] == r.m.buf
  {
    ghost var c, o := d.cfg, d.probe.respond;
    ghost var m := M.Mem(d.State(), nAdr, buf[..], 0, nMany);
    assert M.Transfer(c, o, k, d.State(), nAdr, buf[..], nMany) == M.Engine(c, o, k, m);
    var stop, p;
    ghost var r1 := M.Lead(c, o, k, m);
    status, stop, p := Lead(d, k, nAdr, buf, nMany, m);
    AdrAt(r1.m, nAdr, p);
    if stop {
      assert M.Engine(c, o, k, m) == r1;
      return status, Wrap(nAdr + p);
    }
    ghost var m1 := r1.m;
    assert m1 == M.Mem(d.State(), nAdr, buf[..], p, nMany - p);
    ghost var r2 := M.Chunks(c, o, k, m1);
    status, stop, p := Chunks(d, k, nAdr, buf, p, nMany - p, m1);
    AdrAt(r2.m, nAdr, p);
    if stop {
      assert M.Engine(c, o, k, m) == r2;
      return status, Wrap(nAdr + p);
    }
    ghost var m2 := r2.m;
    assert m2 == M.Mem(d.State(), nAdr, buf[..], p, nMany - p);
    assert M.Engine(c, o, k, m) == M.Trail(c, o, k, m2);
    ghost var r3 := M.Trail(c, o, k, m2);
    status, stop, p := Trail(d, k, nAdr, buf, p, nMany - p, m2);
    AdrAt(r3.m, nAdr, p);
    adr := Wrap(nAdr + p);
  }

  /** RDDI_DAP_ReadARMMem */
  method ReadARMMem(d: Dap, nAdr: Addr, buf: array<bv8>, nMany: nat) returns (status: int, adr: Addr)
    requires ValidConfig(d.cfg) && nMany <= buf.Length
    modifies d, d.probe, buf
    ensures var r := M.Transfer(d.cfg, d.probe.respond, M.ReadMem, old(d.State()), nAdr, old(buf[..]), nMany);
      status == M.RunStatus(r) && adr == M.Adr(r.m) && d.State() == r.m.st && buf[..] == r.m.buf
  {
    status, adr := Transfer(d, M.ReadMem, nAdr, buf, nMany);
  }

  /** RDDI_DAP_WriteARMMem */
  method WriteARMMem(d: Dap, nAdr: Addr, buf: array<bv8>, nMany: nat) returns (status: int, adr: Addr)
    requires ValidConfig(d.cfg) && nMany <= buf.Length
    modifies d, d.probe, buf
    ensures var r := M.Transfer(d.cfg, d.probe.respond, M.WriteMem, old(d.State()), nAdr, old(buf[..]), nMany);
      status == M.RunStatus(r) && adr == M.Adr(r.m) && d.State() == r.m.st && buf[..] == r.m.buf
  {
    status, adr := Transfer(d, M.WriteMem, nAdr, buf, nMany);
  }

  /** RDDI_DAP_VerifyARMMem */
  method VerifyARMMem(d: Dap, nAdr: Addr, buf: array<bv8>, nMany: nat) returns (status: int, adr: Addr)
    requires ValidConfig(d.cfg) && nMany <= buf.Length
    modifies d, d.probe, buf
    ensures var r := M.Transfer(d.cfg, d.probe.respond, M.VerifyMem, old(d.State()), nAdr, old(buf[..]), nMany);
      status == M.RunStatus(r) && adr == M.Adr(r.m) && d.State() == r.m.st && buf[..] == r.m.buf
  {
    status, adr := Transfer(d, M.VerifyMem, nAdr, buf, nMany);
  }

  /** `*nAdr` of a cursor at offset `pos` from `base`. */
  lemma AdrAt(m: M.Mem, base: Addr, pos: nat)
    requires m.base == base && m.pos == pos
    ensures M.Adr(m) == Wrap(base + pos)
  {
  }
}
