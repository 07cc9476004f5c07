/**
 IPv4 addresses and prefixes with the meaning of Go's net/netip, as far as the Worker uses them.

 An address is its 32-bit value. A prefix stands for the block of addresses that agree with it
 on its leading bits; host bits below them are kept, as netip keeps them.
 */
module Ipv4 {

  const SPACE: nat := 0x1_0000_0000

  /** `NotV4` stands for an invalid prefix or one of another address family. */
  datatype Prefix = V4(addr: nat, bits: nat) | NotV4

  function Pow2(n: nat): (p: nat)
    ensures p >= 1
  {
    if n == 0 then 1 else 2 * Pow2(n - 1)
  }

  predicate Address(a: nat) {
    a < SPACE
  }

  predicate Valid(p: Prefix) {
    p.V4? && Address(p.addr) && p.bits <= 32
  }

  /** Number of addresses in the block. */
  function Size(p: Prefix): (n: nat)
    requires Valid(p)
    ensures n >= 1
  {
    Pow2(32 - p.bits)
  }

  /** The first address of the block of `s` addresses that `x` lies in: `x` without its host bits. */
  function BlockStart(x: nat, s: nat): (b: nat)
    requires s > 0
    ensures b <= x < b + s
    decreases x
  {
    if x < s then 0 else s + BlockStart(x - s, s)
  }

  function Masked(p: Prefix): Prefix
    requires Valid(p)
  {
    V4(BlockStart(p.addr, Size(p)), p.bits)
  }

  predicate Contains(p: Prefix, a: nat) {
    Valid(p) && Address(a) && BlockStart(a, Size(p)) == BlockStart(p.addr, Size(p))
  }

  /** netip.Prefix.Overlaps: both addresses are cut to the shorter length and compared. */
  predicate Overlaps(p: Prefix, q: Prefix) {
    Valid(p) && Valid(q) &&
    (p == q ||
     var bits := if p.bits < q.bits then p.bits else q.bits;
     bits == 0 || Masked(V4(p.addr, bits)) == Masked(V4(q.addr, bits)))
  }

  /* ---------- blocks ---------- */

  /** `m` is where a block of `s` addresses starts. */
  predicate Multiple(m: nat, s: nat)
    requires s > 0
  {
    BlockStart(m, s) == m
  }

  /** Moving by whole blocks moves the block. */
  lemma {:induction false} BlockMoves(m: nat, x: nat, s: nat)
    requires s > 0 && Multiple(m, s)
    ensures BlockStart(m + x, s) == m + BlockStart(x, s)
    decreases m
  {
    if m > 0 {
      BlockMoves(m - s, x, s);
      assert m + x - s == (m - s) + x;
    }
  }

  /** The block is fixed by its start. */
  lemma BlockIsUnique(m: nat, x: nat, s: nat)
    requires s > 0 && Multiple(m, s) && m <= x < m + s
    ensures BlockStart(x, s) == m
  {
    BlockMoves(m, x - m, s);
  }

  lemma {:induction false} BlockStartIsMultiple(x: nat, s: nat)
    requires s > 0
    ensures Multiple(BlockStart(x, s), s)
    decreases x
  {
    if x >= s {
      BlockStartIsMultiple(x - s, s);
      assert Multiple(s, s);
      BlockMoves(s, BlockStart(x - s, s), s);
    }
  }

  lemma {:induction false} MultiplesAreNested(m: nat, t: nat, s: nat)
    requires s > 0 && t > 0 && Multiple(m, t) && Multiple(t, s)
    ensures Multiple(m, s)
    decreases m
  {
    if m > 0 {
      MultiplesAreNested(m - t, t, s);
      BlockMoves(t, m - t, s);
    }
  }

  lemma {:induction false} Pow2Multiple(m: nat, n: nat)
    requires m <= n
    ensures Multiple(Pow2(n), Pow2(m))
  {
    if m < n {
      Pow2Multiple(m, n - 1);
      BlockMoves(Pow2(n - 1), Pow2(n - 1), Pow2(m));
    }
  }

  /** Agreeing on a finer block means agreeing on every coarser one. */
  lemma CoarserAgrees(x: nat, y: nat, fine: nat, coarse: nat)
    requires coarse <= fine <= 32
    requires BlockStart(x, Pow2(32 - fine)) == BlockStart(y, Pow2(32 - fine))
    ensures BlockStart(x, Pow2(32 - coarse)) == BlockStart(y, Pow2(32 - coarse))
  {
    CutTwice(x, fine, coarse);
    CutTwice(y, fine, coarse);
  }

  /** Cutting at the finer block first does not change the coarser cut. */
  lemma CutTwice(x: nat, fine: nat, coarse: nat)
    requires coarse <= fine <= 32
    ensures BlockStart(BlockStart(x, Pow2(32 - fine)), Pow2(32 - coarse)) == BlockStart(x, Pow2(32 - coarse))
  {
    var s, t := Pow2(32 - fine), Pow2(32 - coarse);
    var b, c := BlockStart(x, s), BlockStart(x, t);
    Pow2Multiple(32 - fine, 32 - coarse);
    BlockStartIsMultiple(x, t);
    MultiplesAreNested(c, t, s);
    BlockMoves(c, x - c, s);
    BlockIsUnique(c, b, t);
  }

  lemma {:induction false} Pow2Grows(m: nat, n: nat)
    requires m <= n
    ensures Pow2(m) <= Pow2(n)
  {
    if m < n {
      Pow2Grows(m, n - 1);
    }
  }

  lemma Pow2Is32()
    ensures Pow2(32) == SPACE && Pow2(16) == 0x1_0000
  {
    assert Pow2(8) == 0x100;
    assert Pow2(16) == 0x1_0000;
    assert Pow2(24) == 0x100_0000;
  }

  /* ---------- meaning of overlap ---------- */

  /** Two prefixes overlap exactly when some address lies in both. */
  lemma OverlapsMeansShared(p: Prefix, q: Prefix)
    requires Valid(p) && Valid(q)
    ensures Overlaps(p, q) <==> exists a :: Contains(p, a) && Contains(q, a)
  {
    if p.bits <= q.bits { SharedWithFiner(p, q); } else { SharedWithFiner(q, p); }
  }

  lemma SharedWithFiner(p: Prefix, q: Prefix)
    requires Valid(p) && Valid(q) && p.bits <= q.bits
    ensures Overlaps(p, q) <==> exists a :: Contains(p, a) && Contains(q, a)
    ensures Overlaps(q, p) <==> Overlaps(p, q)
    ensures Overlaps(p, q) <==> Contains(p, q.addr)
  {
    if p.bits == 0 { Pow2Is32(); }
    assert Contains(q, q.addr);
    forall a | Contains(p, a) && Contains(q, a) ensures Contains(p, q.addr) {
      CoarserAgrees(a, q.addr, q.bits, p.bits);
    }
  }

  /** The addresses of a masked prefix are a range. */
  lemma ContainsIsRange(p: Prefix, a: nat)
    requires Valid(p) && p == Masked(p) && Address(a)
    ensures Contains(p, a) <==> p.addr <= a < p.addr + Size(p)
  {
    if p.addr <= a < p.addr + Size(p) {
      BlockIsUnique(p.addr, a, Size(p));
    }
  }

  /** A finer block that touches a coarser one lies inside it. */
  lemma FinerIsInside(p: Prefix, q: Prefix, a: nat)
    requires Valid(p) && Valid(q) && p.bits <= q.bits && Contains(p, q.addr) && Contains(q, a)
    ensures Contains(p, a)
  {
    CoarserAgrees(a, q.addr, q.bits, p.bits);
  }

  /** A masked block ends inside the address space. */
  lemma BlockEnds(p: Prefix)
    requires Valid(p) && p == Masked(p)
    ensures p.addr + Size(p) <= SPACE
  {
    var s := Size(p);
    Pow2Is32();
    Pow2Grows(32 - p.bits, 32);
    Pow2Multiple(32 - p.bits, 32);
    BlockMoves(s, SPACE - s, s);
    if p.addr + s > SPACE {
      BlockIsUnique(SPACE - s, p.addr, s);
    }
  }

  /* ---------- private space (RFC 1918 section 3) ---------- */

  predicate Private(a: nat) {
    || 0x0A00_0000 <= a < 0x0B00_0000
    || 0xAC10_0000 <= a < 0xAC20_0000
    || 0xC0A8_0000 <= a < 0xC0A9_0000
  }

  lemma {:induction false} ScaledIsMultiple(q: nat, t: nat)
    requires t > 0 && Multiple(0x1_0000, t)
    ensures Multiple(q * 0x1_0000, t)
  {
    if q > 0 {
      ScaledIsMultiple(q - 1, t);
      BlockMoves((q - 1) * 0x1_0000, 0x1_0000, t);
    }
  }

  /** A block whose size divides 65536 does not cross a multiple of 65536. */
  lemma NoCrossing(b: nat, t: nat, q: nat)
    requires t > 0 && Multiple(b, t) && Multiple(0x1_0000, t)
    ensures b < q * 0x1_0000 ==> b + t <= q * 0x1_0000
  {
    var c := q * 0x1_0000;
    ScaledIsMultiple(q, t);
    if b < c < b + t {
      BlockIsUnique(b, c, t);
    }
  }

  /** Every address of a masked block of at least 16 leading bits is private when its first one is. */
  lemma PrivateBlock(p: Prefix, a: nat)
    requires Valid(p) && p.bits >= 16 && p == Masked(p) && Private(p.addr) && Contains(p, a)
    ensures Private(a)
  {
    var t := Size(p);
    ContainsIsRange(p, a);
    Pow2Multiple(32 - p.bits, 16);
    Pow2Is32();
    NoCrossing(p.addr, t, 0x0B00);
    NoCrossing(p.addr, t, 0xAC20);
    NoCrossing(p.addr, t, 0xC0A9);
  }
}
