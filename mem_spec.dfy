/**
 * The unaligned memory engine of RDDI_DAP_ReadARMMem, RDDI_DAP_WriteARMMem
 * and RDDI_DAP_VerifyARMMem as pure functions.  The three share one shape:
 * a leading byte and halfword until the address is 4-aligned, page-bounded
 * block chunks with a word-by-word fallback, then a trailing halfword and
 * byte.  They differ only in the transfer each step issues.
 *
 * The cursor `Mem` holds what the source keeps in `*nAdr`, `pB` and
 * `nMany`, together with the session state and the buffer contents.  The
 * source always advances `*nAdr` and `pB` together, so the cursor keeps the
 * start address `base` and the offset `pos` of `pB` in the buffer, and
 * `*nAdr` is `base + pos` in 32-bit arithmetic.
 */
module MemSpec {
  import opened DapTypes
  import opened Lanes
  import A = AccessSpec

  datatype Kind = ReadMem | WriteMem | VerifyMem

  /** The session, the start address, the caller's buffer, the offset of `pB` in it and `nMany`. */
  datatype Mem = Mem(st: A.St, base: Addr, buf: seq<bv8>, pos: nat, left: nat)

  /** `*nAdr` */
  function Adr(m: Mem): Addr {
    Wrap(m.base + m.pos)
  }

  /** The bytes still to transfer lie inside the buffer. */
  predicate Fits(m: Mem) {
    m.pos + m.left <= |m.buf|
  }

  /** Where a phase leaves the engine: carry on from `m`, or return `status` with `m`. */
  datatype Run = Go(m: Mem) | Halt(status: int, m: Mem)

  /** The return code of RDDI_DAP_ReadARMMem and its siblings for a finished run. */
  function RunStatus(r: Run): int {
    if r.Go? then 0 else r.status
  }

  /** The cursor moved on by `w` bytes: `pB += w; *nAdr += w; nMany -= w`. */
  function Advance(m: Mem, w: nat): (m': Mem)
    requires w <= m.left
    ensures m'.pos == m.pos + w && m'.left == m.left - w
    ensures m'.base == m.base && m'.st == m.st && m'.buf == m.buf
  {
    m.(pos := m.pos + w, left := m.left - w)
  }

  /**
   * `m2` is `m` moved on by some number of bytes: as many bytes consumed
   * from `nMany` as `pB` advanced, and the buffer keeps its size.
   */
  predicate Progressed(m: Mem, m2: Mem) {
    m2.base == m.base && m.pos <= m2.pos && m2.pos + m2.left == m.pos + m.left && |m2.buf| == |m.buf|
  }

  /** `m2` is `m` at the same place in the transfer. */
  predicate Stayed(m: Mem, m2: Mem) {
    m2.base == m.base && m2.pos == m.pos && m2.left == m.left && |m2.buf| == |m.buf|
  }

  /**
   * `m2`'s buffer is `m`'s except, at most, for the bytes still to transfer
   * from `m`: nothing is stored outside `[pB, pB + nMany)`.
   */
  predicate Confined(m: Mem, m2: Mem) {
    |m2.buf| == |m.buf| &&
    forall i :: 0 <= i < |m.buf| && !(m.pos <= i < m.pos + m.left) ==> m2.buf[i] == m.buf[i]
  }

  /** Return `status` if it is an error, otherwise go on with `m`. */
  function Check(status: int, m: Mem): Run {
    if status != 0 then Halt(status, m) else Go(m)
  }

  // ---------------------------------------------------------------------
  // Narrow transfers

  /**
   * One 8-bit (`w == 1`) or 16-bit (`w == 2`) transfer at `*nAdr`.  A read
   * stores the lane it extracts into the buffer once the access succeeded;
   * verify reads as well.
   */
  function NarrowXfer(c: Config, o: Oracle, k: Kind, m: Mem, w: nat): (r: Run)
    requires w == 1 || w == 2
    requires w <= m.left && Fits(m)
    ensures r.Halt? ==> r.status != 0
    ensures Stayed(m, r.m)
    ensures k == WriteMem ==> r.m.buf == m.buf
  {
    var adr := Adr(m);
    if k == WriteMem then
      var x := if w == 1 then A.WriteD8(c, o, m.st, adr, m.buf[m.pos])
               else A.WriteD16(c, o, m.st, adr, BytesHalf(m.buf[m.pos..m.pos + 2]));
      Check(x.status, m.(st := x.st))
    else
      var x := A.SizedRead(c, o, m.st, if w == 1 then CSW_SIZE8 else CSW_SIZE16, adr);
      if x.status != 0 then Halt(x.status, m.(st := x.st))
      else
        var bytes := if w == 1 then [ExtractByte(x.value, adr)] else HalfBytes(ExtractHalf(x.value, adr));
        Go(m.(st := x.st, buf := Splice(m.buf, m.pos, bytes)))
  }

  /** A narrow transfer, RDDI_DAP_StickyError, then the cursor moves on by `w`. */
  function Narrow(c: Config, o: Oracle, k: Kind, m: Mem, w: nat): (r: Run)
    requires w == 1 || w == 2
    requires w <= m.left && Fits(m)
    ensures r.Halt? ==> r.status != 0 && Stayed(m, r.m)
    ensures r.Go? ==> r.m.pos == m.pos + w
    ensures Progressed(m, r.m)
    ensures k == WriteMem ==> r.m.buf == m.buf
  {
    match NarrowXfer(c, o, k, m, w)
    case Halt(s, m1) => Halt(s, m1)
    case Go(m1) =>
      var y := A.Sticky(c, o, m1.st);
      if y.status != 0 then Halt(y.status, m1.(st := y.st))
      else Go(Advance(m1.(st := y.st), w))
  }

  /** The leading byte (odd address) and halfword (address bit 1 set) steps. */
  function Lead(c: Config, o: Oracle, k: Kind, m: Mem): (r: Run)
    requires Fits(m)
    ensures r.Halt? ==> r.status != 0
    ensures r.Go? && r.m.left >= 4 ==> Adr(r.m) % 4 == 0
    ensures r.Go? ==> r.m.pos - m.pos <= 3
    ensures Progressed(m, r.m)
    ensures k == WriteMem ==> r.m.buf == m.buf
  {
    var r1 := if Adr(m) % 2 == 1 && m.left > 0 then Narrow(c, o, k, m, 1) else Go(m);
    if r1.Halt? then r1
    else
      var m1 := r1.m;
      assert m1.left > 0 ==> Adr(m1) % 4 == 0 || Adr(m1) % 4 == 2 by {
        if m1.left > 0 {
          if m1.pos == m.pos {
            EvenMod4(Adr(m));
          } else {
            OddStep(m, m1);
          }
        }
      }
      if Adr(m1) % 4 >= 2 && m1.left >= 2 then
        var r2 := Narrow(c, o, k, m1, 2);
        if r2.Halt? then r2
        else
          HalfStep(m1, r2.m);
          r2
      else r1
  }

  /** The trailing halfword and byte steps, once fewer than four bytes are left. */
  function Trail(c: Config, o: Oracle, k: Kind, m: Mem): (r: Run)
    requires Fits(m) && m.left < 4
    ensures r.Halt? ==> r.status != 0
    ensures r.Go? ==> r.m.left == 0
    ensures Progressed(m, r.m)
    ensures k == WriteMem ==> r.m.buf == m.buf
  {
    var r1 := if m.left >= 2 then Narrow(c, o, k, m, 2) else Go(m);
    if r1.Halt? then r1
    else if r1.m.left > 0 then Narrow(c, o, k, r1.m, 1)
    else r1
  }

  // ---------------------------------------------------------------------
  // Aligned chunks

  /**
   * `n = RWPage - (*nAdr & (RWPage - 1)); if (nMany < n) n = nMany & ~3`.
   * With RWPage a power of two the mask is the remainder modulo RWPage, and
   * clearing the two low bits of `nMany` subtracts `nMany % 4`.
   */
  function ChunkSize(page: nat, adr: Addr, left: nat): nat
    requires page > 0
  {
    var n := page - adr % page;
    if left < n then left - left % 4 else n
  }

  /** One 32-bit transfer of the word-by-word fallback, then the cursor moves on by 4. */
  function Word32(c: Config, o: Oracle, k: Kind, m: Mem): (r: Run)
    requires 4 <= m.left && Fits(m)
    ensures r.Halt? ==> r.status != 0 && Stayed(m, r.m)
    ensures r.Go? ==> r.m.pos == m.pos + 4
    ensures Progressed(m, r.m)
    ensures k == WriteMem ==> r.m.buf == m.buf
  {
    if k == WriteMem then
      var x := A.WriteD32(c, o, m.st, Adr(m), BytesWord(m.buf[m.pos..m.pos + 4]));
      if x.status != 0 then Halt(x.status, m.(st := x.st))
      else Go(Advance(m.(st := x.st), 4))
    else
      var x := A.ReadD32(c, o, m.st, Adr(m));
      if x.status != 0 then Halt(x.status, m.(st := x.st))
      else Go(Advance(m.(st := x.st, buf := Splice(m.buf, m.pos, WordBytes(x.value))), 4))
  }

  /** The `while (n)` fallback loop over the `n` bytes still to go from `m`. */
  function Slow(c: Config, o: Oracle, k: Kind, m: Mem, n: nat): (r: Run)
    requires n <= m.left && Fits(m)
    ensures r.Halt? ==> r.status != 0 && r.m.pos < m.pos + n
    ensures r.Go? ==> r.m.pos + n % 4 == m.pos + n
    ensures Progressed(m, r.m)
    ensures k == WriteMem ==> r.m.buf == m.buf
    decreases n
  {
    if n < 4 then Go(m)
    else
      match Word32(c, o, k, m)
      case Halt(s, m1) => Halt(s, m1)
      case Go(m1) => Slow(c, o, k, m1, n - 4)
  }

  /** What the block call of a chunk returns, with the session and buffer after it. */
  datatype Did = Did(status: int, m: Mem)

  /** RDDI_DAP_ReadBlock, RDDI_DAP_WriteBlock or RDDI_DAP_VerifyBlock over `n` bytes at `*nAdr`. */
  function Block(c: Config, o: Oracle, k: Kind, m: Mem, n: nat): (d: Did)
    requires n <= m.left && Fits(m)
    ensures Stayed(m, d.m)
    ensures k != ReadMem ==> d.m.buf == m.buf
  {
    match k
    case ReadMem =>
      var x := A.ReadBlock(c, o, m.st, Adr(m), n);
      Did(x.status, m.(st := x.st, buf := Splice(m.buf, m.pos, WordsBytes(x.words))))
    case WriteMem =>
      var x := A.WriteBlock(c, o, m.st, Adr(m), m.buf[m.pos..m.pos + n]);
      Did(x.status, m.(st := x.st))
    case VerifyMem =>
      var x := A.VerifyBlock(c, o, m.st, Adr(m), m.buf[m.pos..m.pos + n]);
      Did(x.status, m.(st := x.st))
  }

  /**
   * One pass of the chunk loop: the block call; on a verify mismatch the
   * chunk is read back into the buffer and the engine returns; on
   * ERROR_MEMORY the chunk is redone word by word and the sticky flags are
   * checked once; any other error returns; success moves on by `n`.
   */
  function Chunk(c: Config, o: Oracle, k: Kind, m: Mem, n: nat): (r: Run)
    requires 4 <= n <= m.left && n % 4 == 0 && Fits(m)
    ensures r.Halt? && r.status == 0 ==> k == VerifyMem
    ensures r.Halt? && r.status == 0 ==> Stayed(m, r.m)
    ensures r.Go? ==> r.m.pos == m.pos + n
    ensures r.Halt? ==> r.m.pos <= m.pos + n
    ensures Progressed(m, r.m)
    ensures k == WriteMem ==> r.m.buf == m.buf
  {
    var b := Block(c, o, k, m, n);
    if k == VerifyMem && b.status == VERIFY_MISMATCH then ReadBack(c, o, b.m, n)
    else if b.status == RDDI_DAP_ERROR_MEMORY then Fallback(c, o, k, b.m, n)
    else if b.status != 0 then Halt(b.status, b.m)
    else Go(Advance(b.m, n))
  }

  /** After a verify mismatch: read the chunk back into the buffer and return. */
  function ReadBack(c: Config, o: Oracle, m: Mem, n: nat): (r: Run)
    requires 4 <= n <= m.left && Fits(m)
    ensures r.Halt? && Stayed(m, r.m)
  {
    var x := A.ReadBlock(c, o, m.st, Adr(m), n);
    Halt(x.status, m.(st := x.st, buf := Splice(m.buf, m.pos, WordsBytes(x.words))))
  }

  /** After ERROR_MEMORY: the chunk word by word, then one RDDI_DAP_StickyError. */
  function Fallback(c: Config, o: Oracle, k: Kind, m: Mem, n: nat): (r: Run)
    requires 4 <= n <= m.left && n % 4 == 0 && Fits(m)
    ensures r.Halt? ==> r.status != 0 && r.m.pos <= m.pos + n
    ensures r.Go? ==> r.m.pos == m.pos + n
    ensures Progressed(m, r.m)
    ensures k == WriteMem ==> r.m.buf == m.buf
  {
    match Slow(c, o, k, m, n)
    case Halt(s, m1) => Halt(s, m1)
    case Go(m1) =>
      var y := A.Sticky(c, o, m1.st);
      Check(y.status, m1.(st := y.st))
  }

  /** The `while (nMany >= 4)` loop. */
  function Chunks(c: Config, o: Oracle, k: Kind, m: Mem): (r: Run)
    requires ValidConfig(c) && Fits(m)
    requires m.left >= 4 ==> Adr(m) % 4 == 0
    ensures r.Halt? && r.status == 0 ==> k == VerifyMem
    ensures r.Halt? && r.status == 0 ==> r.m.left >= 4
    ensures r.Go? ==> r.m.left < 4
    ensures Progressed(m, r.m)
    ensures k == WriteMem ==> r.m.buf == m.buf
    decreases m.left
  {
    if m.left < 4 then Go(m)
    else
      var n := ChunkSize(c.rwPage, Adr(m), m.left);
      ChunkFits(c, Adr(m), m.left);
      match Chunk(c, o, k, m, n)
      case Halt(s, m1) => Halt(s, m1)
      case Go(m1) =>
        WordStep(m, m1, n);
        Chunks(c, o, k, m1)
  }

  /** The whole engine over `nMany` bytes of the buffer starting at `*nAdr`. */
  function Engine(c: Config, o: Oracle, k: Kind, m: Mem): (r: Run)
    requires ValidConfig(c) && Fits(m)
    ensures r.Halt? && r.status == 0 ==> k == VerifyMem
    ensures r.Halt? && r.status == 0 ==> r.m.left >= 4
    ensures r.Go? ==> r.m.left == 0
    ensures Progressed(m, r.m)
    ensures k == WriteMem ==> r.m.buf == m.buf
  {
    match Lead(c, o, k, m)
    case Halt(s, m1) => Halt(s, m1)
    case Go(m1) =>
      match Chunks(c, o, k, m1)
      case Halt(s, m2) => Halt(s, m2)
      case Go(m2) => Trail(c, o, k, m2)
  }

  /** RDDI_DAP_ReadARMMem and its siblings on `nMany` bytes of `buf` at `adr`. */
  function Transfer(c: Config, o: Oracle, k: Kind, s: A.St, adr: Addr, buf: seq<bv8>, nMany: nat): Run
    requires ValidConfig(c) && nMany <= |buf|
  {
    Engine(c, o, k, Mem(s, adr, buf, 0, nMany))
  }

  lemma EvenMod4(a: Addr)
    requires a % 2 == 0
    ensures a % 4 == 0 || a % 4 == 2
  {
    LowBits(a);
  }

  /** Bit 0 and the low two bits of `x`, and of its two successors. */
  lemma LowBits(x: int)
    ensures x % 2 == (x % 4) % 2
    ensures (x + 1) % 4 == ((x % 4) + 1) % 4
    ensures (x + 2) % 4 == ((x % 4) + 2) % 4
  {
    var q := x / 4;
    var r := x % 4;
    assert x == 4 * q + r;
    assert x == 2 * (2 * q) + r;
  }

  /** Past an odd address the next one is even. */
  lemma OddStep(m: Mem, m1: Mem)
    requires m1.base == m.base && m1.pos == m.pos + 1
    requires Adr(m) % 2 == 1
    ensures Adr(m1) % 4 == 0 || Adr(m1) % 4 == 2
  {
    var x := m.base + m.pos;
    WrapMod4(x);
    WrapMod4(x + 1);
    LowBits(Wrap(x));
    LowBits(x);
  }

  /** A halfword step from address bit 1 set lands on a word boundary. */
  lemma HalfStep(m: Mem, m1: Mem)
    requires m1.base == m.base && m1.pos == m.pos + 2
    requires Adr(m) % 4 == 2
    ensures Adr(m1) % 4 == 0
  {
    var x := m.base + m.pos;
    WrapMod4(x);
    WrapMod4(x + 2);
    LowBits(x);
  }

  /** A whole number of words from a word boundary is a word boundary. */
  lemma WordStep(m: Mem, m1: Mem, d: nat)
    requires m1.base == m.base && m1.pos == m.pos + d
    requires Adr(m) % 4 == 0 && d % 4 == 0
    ensures Adr(m1) % 4 == 0
  {
    var x := m.base + m.pos;
    WrapMod4(x);
    WrapMod4(x + d);
    assert x + d == 4 * (d / 4) + x;
    Mod4Shift(x, d / 4);
  }

  /** The address space is a whole number of words, so wrapping keeps the address modulo 4. */
  lemma WrapMod4(a: nat)
    ensures Wrap(a) % 4 == a % 4
  {
    var q := a / ADDR_SPACE;
    var w := a % ADDR_SPACE;
    assert a == ADDR_SPACE * q + w;
    var k := q * 0x4000_0000;
    assert a == 4 * k + w;
    Mod4Shift(w, k);
  }

  /** Adding whole words keeps an address modulo 4. */
  lemma Mod4Shift(w: int, k: int)
    ensures (4 * k + w) % 4 == w % 4
  {
  }

  // ---------------------------------------------------------------------
  // Chunk arithmetic

  lemma {:induction false} Pow2Mod4(p: nat)
    requires IsPow2(p) && p >= 4
    ensures p % 4 == 0
    decreases p
  {
    if p > 4 {
      Pow2Mod4(p / 2);
    }
  }

  lemma ModOfMultiple(a: int, p: nat)
    requires p > 0 && p % 4 == 0
    ensures (a % p) % 4 == a % 4
  {
    var q := a / p;
    var p4 := p / 4;
    assert a % p == a - 4 * (q * p4);
  }

  /**
   * A chunk starting at a 4-aligned address with at least four bytes left
   * is a positive multiple of four, stays inside one RWPage window (it runs
   * either to the window's end or over every whole word left), and so meets
   * every precondition the block transfers check.
   */
  lemma ChunkFits(c: Config, adr: Addr, left: nat)
    requires ValidConfig(c) && adr % 4 == 0 && left >= 4
    ensures var n := ChunkSize(c.rwPage, adr, left);
      4 <= n <= left && n % 4 == 0 && adr % c.rwPage + n <= c.rwPage &&
      (adr % c.rwPage + n == c.rwPage || n == left - left % 4) &&
      A.BlockOk(c, n)
  {
    var p := c.rwPage;
    Pow2Mod4(p);
    ModOfMultiple(adr, p);
    var off := adr % p;
    assert off % 4 == 0 && 0 <= off < p;
    MultipleGap(off, p);
    var n := ChunkSize(p, adr, left);
    if left < p - off {
      assert n == left - left % 4;
    } else {
      assert n == p - off;
    }
  }

  lemma MultipleGap(off: nat, p: nat)
    requires off % 4 == 0 && p % 4 == 0 && off < p
    ensures (p - off) % 4 == 0 && p - off >= 4
  {
    var i := off / 4;
    var j := p / 4;
    assert p - off == 4 * (j - i);
  }
}
