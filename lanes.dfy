/**
 * Byte-lane placement of narrow transfers and the host-side byte order.
 *
 * A MEM-AP transfers a whole 32-bit word on DRW; for an 8- or 16-bit access
 * the bus lane is chosen by the low address bits.  ReadD16/ReadD8 shift the
 * word right by `(adr & 2) << 3` or `(adr & 3) << 3` and truncate, and
 * WriteD16/WriteD8 shift the value left by the same amount.  The address is
 * an unsigned 32-bit value, so `adr & 3` is `adr % 4` and `adr & 2` is
 * set exactly when `adr % 4 >= 2`.
 *
 * The caller's byte buffer is reinterpreted as WORD and DWORD arrays on a
 * little-endian host; the packing functions below state that order.
 */
module Lanes {
  import opened DapTypes

  /** `(adr & 0x03) << 3` */
  function ByteShift(adr: Addr): (s: bv32)
    ensures s == 0 || s == 8 || s == 16 || s == 24
  {
    if adr % 4 == 0 then 0 else if adr % 4 == 1 then 8 else if adr % 4 == 2 then 16 else 24
  }

  /** `(adr & 0x02) << 3` */
  function HalfShift(adr: Addr): (s: bv32)
    ensures s == 0 || s == 16
  {
    if adr % 4 >= 2 then 16 else 0
  }

  /** A shift that selects one byte lane. */
  predicate ByteShiftOk(s: bv32) {
    s == 0 || s == 8 || s == 16 || s == 24
  }

  /** A shift that selects one halfword lane. */
  predicate HalfShiftOk(s: bv32) {
    s == 0 || s == 16
  }

  /** The bus lane a byte access at `adr` uses. */
  function ByteLane(adr: Addr): bv32 {
    (0xFF as bv32) << ByteShift(adr)
  }

  /** The bus lane a halfword access at `adr` uses. */
  function HalfLane(adr: Addr): bv32 {
    (0xFFFF as bv32) << HalfShift(adr)
  }

  /** The C cast `(BYTE)x`. */
  function Lo8(x: bv32): bv8 {
    (x & 0xFF) as bv8
  }

  /** The C cast `(WORD)x`. */
  function Lo16(x: bv32): bv16 {
    (x & 0xFFFF) as bv16
  }

  function ByteAt(v: bv32, s: bv32): bv8
    requires ByteShiftOk(s)
  {
    Lo8(v >> s)
  }

  function HalfAt(v: bv32, s: bv32): bv16
    requires HalfShiftOk(s)
  {
    Lo16(v >> s)
  }

  function PlaceByteAt(b: bv8, s: bv32): bv32
    requires ByteShiftOk(s)
  {
    (b as bv32) << s
  }

  function PlaceHalfAt(h: bv16, s: bv32): bv32
    requires HalfShiftOk(s)
  {
    (h as bv32) << s
  }

  /** `(BYTE)(v >> ((adr & 0x03) << 3))` */
  function ExtractByte(v: bv32, adr: Addr): bv8 {
    ByteAt(v, ByteShift(adr))
  }

  /** `(WORD)(v >> ((adr & 0x02) << 3))` */
  function ExtractHalf(v: bv32, adr: Addr): bv16 {
    HalfAt(v, HalfShift(adr))
  }

  /** `(DWORD)val << ((adr & 0x03) << 3)` */
  function PlaceByte(b: bv8, adr: Addr): bv32 {
    PlaceByteAt(b, ByteShift(adr))
  }

  /** `(DWORD)val << ((adr & 0x02) << 3)` */
  function PlaceHalf(h: bv16, adr: Addr): bv32 {
    PlaceHalfAt(h, HalfShift(adr))
  }

  /** A byte written at `adr` and read back at `adr` travels on one lane and survives. */
  lemma ByteLaneRoundTrip(b: bv8, adr: Addr)
    ensures ExtractByte(PlaceByte(b, adr), adr) == b
    ensures PlaceByte(b, adr) & !ByteLane(adr) == 0
  {
    ByteAtRoundTrip(b, ByteShift(adr));
  }

  /** A halfword written at `adr` and read back at `adr` travels on one lane and survives. */
  lemma HalfLaneRoundTrip(h: bv16, adr: Addr)
    ensures ExtractHalf(PlaceHalf(h, adr), adr) == h
    ensures PlaceHalf(h, adr) & !HalfLane(adr) == 0
  {
    HalfAtRoundTrip(h, HalfShift(adr));
  }

  /** A byte read only looks at the lane of its address: the other lanes do not matter. */
  lemma ExtractByteIgnoresOtherLanes(v: bv32, w: bv32, adr: Addr)
    requires v & ByteLane(adr) == w & ByteLane(adr)
    ensures ExtractByte(v, adr) == ExtractByte(w, adr)
  {
    ByteAtIgnores(v, w, ByteShift(adr));
  }

  /** A halfword read only looks at the lane of its address. */
  lemma ExtractHalfIgnoresOtherLanes(v: bv32, w: bv32, adr: Addr)
    requires v & HalfLane(adr) == w & HalfLane(adr)
    ensures ExtractHalf(v, adr) == ExtractHalf(w, adr)
  {
    HalfAtIgnores(v, w, HalfShift(adr));
  }

  lemma ByteAtRoundTrip(b: bv8, s: bv32)
    requires ByteShiftOk(s)
    ensures ByteAt(PlaceByteAt(b, s), s) == b
    ensures PlaceByteAt(b, s) & !((0xFF as bv32) << s) == 0
  {
    if s == 0 {
    } else if s == 8 {
    } else if s == 16 {
    } else {
    }
  }

  lemma HalfAtRoundTrip(h: bv16, s: bv32)
    requires HalfShiftOk(s)
    ensures HalfAt(PlaceHalfAt(h, s), s) == h
    ensures PlaceHalfAt(h, s) & !((0xFFFF as bv32) << s) == 0
  {
    if s == 0 {
    } else {
    }
  }

  lemma ByteAtIgnores(v: bv32, w: bv32, s: bv32)
    requires ByteShiftOk(s)
    requires v & ((0xFF as bv32) << s) == w & ((0xFF as bv32) << s)
    ensures ByteAt(v, s) == ByteAt(w, s)
  {
    if s == 0 {
    } else if s == 8 {
    } else if s == 16 {
    } else {
    }
  }

  lemma HalfAtIgnores(v: bv32, w: bv32, s: bv32)
    requires HalfShiftOk(s)
    requires v & ((0xFFFF as bv32) << s) == w & ((0xFFFF as bv32) << s)
    ensures HalfAt(v, s) == HalfAt(w, s)
  {
    if s == 0 {
    } else {
    }
  }

  // ---------------------------------------------------------------------
  // Little-endian host byte order

  function HalfBytes(h: bv16): (s: seq<bv8>)
    ensures |s| == 2
  {
    [(h & 0xFF) as bv8, (h >> 8) as bv8]
  }

  function BytesHalf(s: seq<bv8>): bv16
    requires |s| == 2
  {
    (s[0] as bv16) | ((s[1] as bv16) << 8)
  }

  function WordBytes(w: bv32): (s: seq<bv8>)
    ensures |s| == 4
  {
    [(w & 0xFF) as bv8, ((w >> 8) & 0xFF) as bv8, ((w >> 16) & 0xFF) as bv8, (w >> 24) as bv8]
  }

  function BytesWord(s: seq<bv8>): bv32
    requires |s| == 4
  {
    (s[0] as bv32) | ((s[1] as bv32) << 8) | ((s[2] as bv32) << 16) | ((s[3] as bv32) << 24)
  }

  /** The bytes a run of DWORDs occupies in the caller's buffer. */
  function WordsBytes(ws: seq<bv32>): (s: seq<bv8>)
    ensures |s| == 4 * |ws|
  {
    if ws == [] then [] else WordBytes(ws[0]) + WordsBytes(ws[1..])
  }

  /** The DWORDs a (multiple-of-four) run of buffer bytes holds. */
  function BytesWords(s: seq<bv8>): (ws: seq<bv32>)
    requires |s| % 4 == 0
    ensures 4 * |ws| == |s|
  {
    if s == [] then [] else [BytesWord(s[..4])] + BytesWords(s[4..])
  }

  lemma HalfBytesRoundTrip(h: bv16, s: seq<bv8>)
    requires |s| == 2
    ensures BytesHalf(HalfBytes(h)) == h
    ensures HalfBytes(BytesHalf(s)) == s
  {
  }

  lemma WordBytesRoundTrip(w: bv32, s: seq<bv8>)
    requires |s| == 4
    ensures BytesWord(WordBytes(w)) == w
    ensures WordBytes(BytesWord(s)) == s
  {
  }

  /** The DWORDs read out of a buffer run store back to exactly that run. */
  lemma {:induction false} BytesWordsRoundTrip(s: seq<bv8>)
    requires |s| % 4 == 0
    ensures WordsBytes(BytesWords(s)) == s
  {
    if s != [] {
      WordBytesRoundTrip(0, s[..4]);
      BytesWordsRoundTrip(s[4..]);
      assert s == s[..4] + s[4..];
    }
  }

  /** The DWORDs stored into a buffer run read back as the same DWORDs. */
  lemma {:induction false} WordsBytesRoundTrip(ws: seq<bv32>)
    ensures BytesWords(WordsBytes(ws)) == ws
  {
    if ws != [] {
      WordBytesRoundTrip(ws[0], [0, 0, 0, 0]);
      WordsBytesRoundTrip(ws[1..]);
      var t := WordsBytes(ws);
      assert t[..4] == WordBytes(ws[0]);
      assert t[4..] == WordsBytes(ws[1..]);
    }
  }

  // ---------------------------------------------------------------------
  // The caller's buffer

  /** The buffer `b` with the bytes from position `p` onwards replaced by `s`. */
  function Splice(b: seq<bv8>, p: nat, s: seq<bv8>): (r: seq<bv8>)
    requires p + |s| <= |b|
    ensures |r| == |b|
    ensures forall i :: 0 <= i < |b| ==> r[i] == if p <= i < p + |s| then s[i - p] else b[i]
  {
    b[..p] + s + b[p + |s|..]
  }
}
