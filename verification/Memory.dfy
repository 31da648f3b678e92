/** Byte memories of the two sides, with the block copies the runtime performs on them.

A memory has a fixed size.  A copy that would leave it is a fault; requests are checked to stay
inside when they are issued, so the guards below only make the functions total. */
module Memory {

  datatype Option<+T> = None | Some(value: T)

  type Byte = x: int | 0 <= x < 256

  const TWO64: int := 0x1_0000_0000_0000_0000
  type Word = x: int | 0 <= x < TWO64

  type Mem = seq<Byte>

  function Zeros(n: nat): (z: seq<Byte>)
    ensures |z| == n && forall i :: 0 <= i < n ==> z[i] == 0
  {
    seq(n, _ => 0)
  }

  function Read(m: Mem, a: nat, n: nat): (d: seq<Byte>)
    ensures |d| == n
    ensures a + n <= |m| ==> forall i :: 0 <= i < n ==> d[i] == m[a + i]
  {
    if a + n <= |m| then m[a..a + n] else Zeros(n)
  }

  function Write(m: Mem, a: nat, d: seq<Byte>): (m': Mem)
    ensures |m'| == |m|
    ensures forall x :: 0 <= x < |m| ==>
      m'[x] == if a <= x < a + |d| && a + |d| <= |m| then d[x - a] else m[x]
  {
    if a + |d| <= |m| then m[..a] + d + m[a + |d|..] else m
  }

  /** Two adjacent writes are one write. */
  lemma WriteAdjacent(m: Mem, a: nat, d: seq<Byte>, e: seq<Byte>)
    requires a + |d| + |e| <= |m|
    ensures Write(Write(m, a, d), a + |d|, e) == Write(m, a, d + e)
    ensures Write(Write(m, a + |d|, e), a, d) == Write(m, a, d + e)
  {
  }

  lemma ReadAdjacent(m: Mem, a: nat, i: nat, j: nat)
    requires a + i + j <= |m|
    ensures Read(m, a, i) + Read(m, a + i, j) == Read(m, a, i + j)
  {
  }

  /** A block of memory. */
  datatype Region = Region(addr: nat, len: nat) {
    predicate Has(x: int) { addr <= x < addr + len }
  }

  predicate Apart(a: Region, b: Region) {
    a.len == 0 || b.len == 0 || a.addr + a.len <= b.addr || b.addr + b.len <= a.addr
  }

  predicate AllApart(xs: seq<Region>, ys: seq<Region>) {
    forall i, j :: 0 <= i < |xs| && 0 <= j < |ys| ==> Apart(xs[i], ys[j])
  }

  /** `x` lies in none of the regions. */
  predicate Outside(x: int, rs: seq<Region>) {
    forall i :: 0 <= i < |rs| ==> !rs[i].Has(x)
  }
}
