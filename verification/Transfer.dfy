/** Fragmented memory transfers: the fragment size asyncReadMem and asyncWriteMem choose, and what the
fragments amount to (AsyncTransfer.cpp). */
module Transfer {
  import opened Memory
  import opened Protocol

  const KIB: nat := 1024
  const PART_SENDFRAG: nat := 4 * KIB * KIB
  const DEFAULT_CUT: nat := 2 * KIB * KIB

  /** VEO_SENDFRAG / VEO_RECVFRAG and VEO_SENDCUT / VEO_RECVCUT, as atoi returns them. */
  datatype Settings = Settings(frag: Option<int>, cut: Option<int>)

  /** Conversion of an int to size_t. */
  function SizeT(x: int): nat { x % TWO64 }

  function Align8(x: nat): (r: nat)
    ensures x <= r < x + 8 && r % 8 == 0
  {
    (x + 7) / 8 * 8
  }

  function BaseFrag(env: Env, cfg: Settings): nat {
    match cfg.frag
    case Some(f) => SizeT(f)
    case None => if env.maxCmd < 2 * PART_SENDFRAG then KIB * KIB else PART_SENDFRAG
  }

  function CutSize(cfg: Settings): nat {
    match cfg.cut case Some(c) => SizeT(c) case None => DEFAULT_CUT
  }

  /** Into how many parts a transfer below five base fragments is cut; `most` and `more` are 5 and 4
  when reading, 4 and 3 when writing. */
  function Divisor(size: nat, cut: nat, most: nat, more: nat): nat {
    if size > cut then most else if size > cut / 2 then more else if size > cut / 3 then 2 else 1
  }

  function Frag(env: Env, cfg: Settings, size: nat, most: nat, more: nat): nat
    requires most > 0 && more > 0
  {
    var base := BaseFrag(env, cfg);
    if size < SizeT(5 * base) then Align8(size / Divisor(size, CutSize(cfg), most, more)) else base
  }

  function ReadFrag(env: Env, cfg: Settings, size: nat): nat { Frag(env, cfg, size, 5, 4) }

  function WriteFrag(env: Env, cfg: Settings, size: nat): nat { Frag(env, cfg, size, 4, 3) }

  const DEFAULTS: Settings := Settings(None, None)

  /** The transfer loop makes progress exactly if the fragment size is positive, which fails for a zero base
  size and for a transfer smaller than the number of parts it is cut into (possible only with a cut
  size set by the user). */
  lemma FragPositive(env: Env, cfg: Settings, size: nat, most: nat, more: nat)
    requires most > 0 && more > 0 && size > 0
    ensures Frag(env, cfg, size, most, more) > 0 <==>
      var base := BaseFrag(env, cfg);
      if size < SizeT(5 * base) then size >= Divisor(size, CutSize(cfg), most, more) else base > 0
  {
    var d := Divisor(size, CutSize(cfg), most, more);
    if size >= d { DivAtLeastOne(size, d); } else { assert size / d == 0 by { DivZero(size, d); } }
  }

  lemma DivAtLeastOne(x: nat, d: nat)
    requires d > 0 && x >= d
    ensures x / d >= 1
  {
  }

  lemma DivZero(x: nat, d: nat)
    requires x < d
    ensures x / d == 0
  {
  }

  /** Settings with which fragments are empty, so that the transfer never ends (LoopEnds). */
  lemma FragCanBeZero(env: Env)
    ensures ReadFrag(env, Settings(Some(0), None), 1) == 0
    ensures WriteFrag(env, Settings(Some(64), Some(0)), 3) == 0
  {
  }

  /** With the default settings every transfer makes progress, read fragments stay within the base size
  and write fragments within 5/4 of it. */
  lemma DefaultFrags(env: Env, size: nat)
    requires size > 0
    ensures var base := BaseFrag(env, DEFAULTS);
      && 0 < ReadFrag(env, DEFAULTS, size) <= base
      && 0 < WriteFrag(env, DEFAULTS, size) <= Align8(base * 5 / 4)
  {
    hide Align8;
    var base := BaseFrag(env, DEFAULTS);
    AlignMono(base, base * 5 / 4);
    AlignMono(base, base);
    if size < 5 * base {
      PartBound(size, base, 5, 4);
      PartBound(size, base, 4, 3);
    }
  }

  /** The parts of a small transfer are not empty and not longer than `most`-th parts of the limit. */
  lemma PartBound(size: nat, base: nat, most: nat, more: nat)
    requires 0 < size < 5 * base && (base == KIB * KIB || base == PART_SENDFRAG)
    requires (most == 5 && more == 4) || (most == 4 && more == 3)
    ensures var p := size / Divisor(size, DEFAULT_CUT, most, more);
      0 < Align8(p) <= Align8(if most == 5 then base else base * 5 / 4)
  {
    var p := size / Divisor(size, DEFAULT_CUT, most, more);
    assert 0 < p <= if most == 5 then base else base * 5 / 4;
    AlignMono(p, if most == 5 then base else base * 5 / 4);
  }

  lemma AlignMono(x: nat, y: nat)
    requires x <= y
    ensures Align8(x) <= Align8(y) && (x % 8 == 0 ==> Align8(x) == x) && (x > 0 ==> Align8(x) > 0)
  {
  }

  // ---- tiling ----

  datatype Piece = Piece(off: nat, len: nat)

  /** The pieces the transfer loop produces, starting at `off` with `rest` bytes to go. */
  function Pieces(off: nat, rest: nat, frag: nat): seq<Piece>
    requires frag > 0
    decreases rest
  {
    if rest == 0 then []
    else
      var p := if rest <= frag then rest else frag;
      [Piece(off, p)] + Pieces(off + p, rest - p, frag)
  }

  /** The next round of the loop. */
  lemma NextPiece(ps: seq<Piece>, n: nat, off: nat, rest: nat, frag: nat)
    requires frag > 0 && rest > 0 && n <= |ps| && ps[n..] == Pieces(off, rest, frag)
    ensures var p := if rest <= frag then rest else frag;
      n < |ps| && ps[n] == Piece(off, p) && ps[n + 1..] == Pieces(off + p, rest - p, frag)
  {
    var p := if rest <= frag then rest else frag;
    assert ps[n..] == [Piece(off, p)] + Pieces(off + p, rest - p, frag);
  }

  lemma NoPieces(off: nat, frag: nat)
    requires frag > 0
    ensures Pieces(off, 0, frag) == []
  {
  }

  /** The bytes to go after `n` rounds of the transfer loop. */
  function RestAfter(size: nat, frag: nat, n: nat): (rest: nat)
    ensures rest <= size
  {
    if n == 0 then size
    else
      var rest := RestAfter(size, frag, n - 1);
      if rest <= frag then 0 else rest - frag
  }

  lemma {:induction false} RestFalls(size: nat, frag: nat, n: nat)
    requires frag > 0
    ensures RestAfter(size, frag, n) == 0 || RestAfter(size, frag, n) + n <= size
  {
    if n > 0 { RestFalls(size, frag, n - 1); }
  }

  lemma {:induction false} RestStuck(size: nat, n: nat)
    ensures RestAfter(size, 0, n) == size
  {
    if n > 0 { RestStuck(size, n - 1); }
  }

  /** The loop ends if and only if there is nothing to transfer or the fragment size is positive. */
  lemma LoopEnds(size: nat, frag: nat)
    ensures (exists n :: RestAfter(size, frag, n) == 0) <==> size == 0 || frag > 0
  {
    if frag > 0 {
      RestFalls(size, frag, size + 1);
      assert RestAfter(size, frag, size + 1) == 0;
    } else {
      forall n ensures RestAfter(size, frag, n) == size { RestStuck(size, n); }
      assert RestAfter(size, frag, 0) == size;
    }
  }

  /** The pieces follow each other without gap or overlap from `from` to `to`. */
  predicate Tiles(ps: seq<Piece>, from: nat, to: nat) {
    if ps == [] then from == to
    else
      var last := ps[|ps| - 1];
      from <= last.off && last.off + last.len == to && Tiles(ps[..|ps| - 1], from, last.off)
  }

  lemma {:induction false} TilesCons(p: Piece, ps: seq<Piece>, to: nat)
    requires Tiles(ps, p.off + p.len, to)
    ensures Tiles([p] + ps, p.off, to)
  {
    if ps == [] {
      assert [p] + ps == [p];
      assert [p][..0] == [];
    } else {
      var n := |ps| - 1;
      TilesCons(p, ps[..n], ps[n].off);
      assert ([p] + ps)[..n + 1] == [p] + ps[..n];
    }
  }

  lemma {:induction false} PiecesTile(off: nat, rest: nat, frag: nat)
    requires frag > 0
    ensures Tiles(Pieces(off, rest, frag), off, off + rest)
    ensures forall p :: p in Pieces(off, rest, frag) ==> 0 < p.len <= frag
    decreases rest
  {
    if rest > 0 {
      var p := if rest <= frag then rest else frag;
      PiecesTile(off + p, rest - p, frag);
      TilesCons(Piece(off, p), Pieces(off + p, rest - p, frag), off + rest);
    }
  }

  lemma {:induction false} PiecesCount(off: nat, rest: nat, frag: nat, n: nat)
    requires frag > 0 && rest <= n * frag
    ensures |Pieces(off, rest, frag)| <= n
    decreases rest
  {
    if rest > frag {
      assert rest - frag <= (n - 1) * frag;
      PiecesCount(off + frag, rest - frag, frag, n - 1);
    } else if rest > 0 {
      assert n > 0;
      assert Pieces(off + rest, 0, frag) == [];
    }
  }

  /** Cutting into d parts rounded up to words takes at most d + 1 of them. */
  lemma CutCount(size: nat, d: nat)
    requires 1 <= d <= 5 && (d == 1 || size >= 32)
    ensures size <= (d + 1) * Align8(size / d) && (d == 1 ==> size <= Align8(size / d))
  {
    var q := size / d;
    assert size <= d * q + (d - 1);
    assert (d + 1) * q <= (d + 1) * Align8(q);
  }

  /** Below five base fragments the default settings give at most 6 read and 5 write fragments. */
  lemma DefaultCounts(env: Env, size: nat)
    requires 0 < size < 5 * BaseFrag(env, DEFAULTS)
    ensures var r := ReadFrag(env, DEFAULTS, size); r > 0 && |Pieces(0, size, r)| <= 6
    ensures var w := WriteFrag(env, DEFAULTS, size); w > 0 && |Pieces(0, size, w)| <= 5
  {
    DefaultFrags(env, size);
    DefaultCount(env, size, 5, 4);
    DefaultCount(env, size, 4, 3);
  }

  lemma MoreParts(d: nat, most: nat, f: nat)
    requires d <= most
    ensures (d + 1) * f <= (most + 1) * f
  {
  }

  lemma DefaultCount(env: Env, size: nat, most: nat, more: nat)
    requires 0 < size < 5 * BaseFrag(env, DEFAULTS) && 2 <= more < most <= 5
    requires Frag(env, DEFAULTS, size, most, more) > 0
    ensures |Pieces(0, size, Frag(env, DEFAULTS, size, most, more))| <= most + 1
  {
    hide Pieces, Align8;
    var d := Divisor(size, DEFAULT_CUT, most, more);
    var f := Frag(env, DEFAULTS, size, most, more);
    assert f == Align8(size / d);
    CutCount(size, d);
    MoreParts(d, most, f);
    PiecesCount(0, size, f, most + 1);
  }

  lemma {:induction false} PiecesAtLeast(off: nat, rest: nat, frag: nat, n: nat)
    requires frag > 0 && rest > n * frag
    ensures |Pieces(off, rest, frag)| > n
    decreases n
  {
    if n > 0 {
      assert rest > frag + (n - 1) * frag;
      PiecesAtLeast(off + frag, rest - frag, frag, n - 1);
    }
  }

  /** Into how many parts a transfer is cut by default: one up to two thirds of a MiB, two up to one, then 4 or 3 up to
  two MiB, and 5 or 4 beyond, for reads and writes. */
  function DefaultCut(size: nat, read: bool): nat {
    if size > 0x20_0000 then if read then 5 else 4
    else if size > 0x10_0000 then if read then 4 else 3
    else if size > 0xA_AAAA then 2
    else 1
  }

  /** Below five base fragments a default transfer has as many fragments as it is cut into parts, or one more for what
  rounding to words leaves over. */
  lemma DefaultParts(env: Env, size: nat, read: bool)
    requires 0 < size < 5 * if env.maxCmd < 0x80_0000 then 0x10_0000 else 0x40_0000
    ensures var f := if read then ReadFrag(env, DEFAULTS, size) else WriteFrag(env, DEFAULTS, size);
      var d := DefaultCut(size, read);
      f > 0 && d <= |Pieces(0, size, f)| <= d + if d == 1 then 0 else 1
  {
    hide Pieces;
    var d := DefaultCut(size, read);
    var f := if read then ReadFrag(env, DEFAULTS, size) else WriteFrag(env, DEFAULTS, size);
    assert f == Align8(size / d);
    PartSizes(size, d, f);
    CutCount(size, d);
    PiecesCount(0, size, f, if d == 1 then 1 else d + 1);
    PiecesAtLeast(0, size, f, d - 1);
  }

  lemma PartSizes(size: nat, d: nat, f: nat)
    requires 1 <= d <= 5 && size > 0 && (d > 1 ==> size > 0xA_AAAA) && f == Align8(size / d)
    ensures f > 0 && (d - 1) * f < size
  {
    if d == 1 { assert (d - 1) * f == 0; }
    else if d == 2 { assert (d - 1) * f == f; }
    else if d == 3 { assert (d - 1) * f == 2 * f; }
    else if d == 4 { assert (d - 1) * f == 3 * f; }
    else { assert (d - 1) * f == 4 * f; }
  }

  /** The fragment size of a long transfer: the one set by the user, or 1 or 4 MiB depending on the channel. */
  function LongFrag(env: Env, cfg: Settings): int {
    if cfg.frag.Some? then cfg.frag.value else if env.maxCmd < 0x80_0000 then 0x10_0000 else 0x40_0000
  }

  /** From five such fragments on it is what both directions use. */
  lemma LongTransfers(env: Env, cfg: Settings, size: nat)
    requires 0 < LongFrag(env, cfg) < 0x8000_0000 && size >= 5 * LongFrag(env, cfg)
    ensures ReadFrag(env, cfg, size) == LongFrag(env, cfg) && WriteFrag(env, cfg, size) == LongFrag(env, cfg)
  {
    hide Align8, Divisor, CutSize;
    assert BaseFrag(env, cfg) == LongFrag(env, cfg);
    assert SizeT(5 * LongFrag(env, cfg)) == 5 * LongFrag(env, cfg);
  }

  // ---- what the fragments amount to ----

  /** SENDBUFF commands for the pieces of a write. */
  predicate Sends(ops: seq<Op>, ps: seq<Piece>, dst: nat, src: nat) {
    |ops| == |ps| && forall i :: 0 <= i < |ps| ==>
      ops[i].Send? && ops[i].dst == dst + ps[i].off && ops[i].src == src + ps[i].off && ops[i].size == ps[i].len
  }

  /** RECVBUFF commands for the pieces of a read. */
  predicate Recvs(ops: seq<Op>, ps: seq<Piece>, dst: nat, src: nat) {
    |ops| == |ps| && forall i :: 0 <= i < |ps| ==>
      ops[i].Recv? && ops[i].dst == dst + ps[i].off && ops[i].src == src + ps[i].off && ops[i].size == ps[i].len
  }

  lemma SendStep(env: Env, w: World, op: Op)
    requires op.Send?
    ensures SeqStep(env, w, op) == World(Write(w.ve, op.dst, Read(w.host, op.src, op.size)), w.host)
  {
  }

  lemma RecvStep(env: Env, w: World, op: Op)
    requires op.Recv?
    ensures SeqStep(env, w, op) == World(w.ve, Write(w.host, op.dst, Read(w.ve, op.src, op.size)))
  {
  }

  lemma CopyNone(to: Mem, from: Mem, dst: nat, src: nat)
    requires dst <= |to|
    ensures Write(to, dst, Read(from, src, 0)) == to
  {
  }

  /** A copy of `n` bytes and one of the next `m` are one copy. */
  lemma CopyMore(to: Mem, from: Mem, dst: nat, src: nat, n: nat, m: nat)
    requires dst + n + m <= |to| && src + n + m <= |from|
    ensures Write(Write(to, dst, Read(from, src, n)), dst + n, Read(from, src + n, m)) == Write(to, dst, Read(from, src, n + m))
  {
    ReadAdjacent(from, src, n, m);
    WriteAdjacent(to, dst, Read(from, src, n), Read(from, src + n, m));
  }

  /** A fragmented write is one copy from host to VE. */
  lemma {:induction false} WriteIsOneCopy(env: Env, w: World, ops: seq<Op>, ps: seq<Piece>, dst: nat, src: nat, size: nat)
    requires Tiles(ps, 0, size) && Sends(ops, ps, dst, src)
    requires dst + size <= |w.ve| && src + size <= |w.host|
    ensures ExecSeq(env, w, ops) == World(Write(w.ve, dst, Read(w.host, src, size)), w.host)
  {
    hide ExecSeq, SeqStep, Write, Read;
    if ps == [] {
      ExecNone(env, w);
      CopyNone(w.ve, w.host, dst, src);
    } else {
      var n := |ps| - 1;
      var p := ps[n];
      WriteIsOneCopy(env, w, ops[..n], ps[..n], dst, src, p.off);
      ExecSnoc(env, w, ops[..n], ops[n]);
      assert ops[..n] + [ops[n]] == ops;
      SendStep(env, ExecSeq(env, w, ops[..n]), ops[n]);
      CopyMore(w.ve, w.host, dst, src, p.off, p.len);
    }
  }

  /** A fragmented read is one copy from VE to host. */
  lemma {:induction false} ReadIsOneCopy(env: Env, w: World, ops: seq<Op>, ps: seq<Piece>, dst: nat, src: nat, size: nat)
    requires Tiles(ps, 0, size) && Recvs(ops, ps, dst, src)
    requires src + size <= |w.ve| && dst + size <= |w.host|
    ensures ExecSeq(env, w, ops) == World(w.ve, Write(w.host, dst, Read(w.ve, src, size)))
  {
    hide ExecSeq, SeqStep, Write, Read;
    if ps == [] {
      ExecNone(env, w);
      CopyNone(w.host, w.ve, dst, src);
    } else {
      var n := |ps| - 1;
      var p := ps[n];
      ReadIsOneCopy(env, w, ops[..n], ps[..n], dst, src, p.off);
      ExecSnoc(env, w, ops[..n], ops[n]);
      assert ops[..n] + [ops[n]] == ops;
      RecvStep(env, ExecSeq(env, w, ops[..n]), ops[n]);
      CopyMore(w.host, w.ve, dst, src, p.off, p.len);
    }
  }

  /** Writing a buffer to the VE and reading it back, with the different fragment plans of the two
  directions, returns the original bytes. */
  lemma WriteReadRoundTrip(env: Env, w: World, out: seq<Op>, back: seq<Op>, ps: seq<Piece>, qs: seq<Piece>,
                           ve: nat, src: nat, dst: nat, size: nat)
    requires Tiles(ps, 0, size) && Sends(out, ps, ve, src) && Tiles(qs, 0, size) && Recvs(back, qs, dst, ve)
    requires ve + size <= |w.ve| && src + size <= |w.host| && dst + size <= |w.host|
    ensures Read(ExecSeq(env, w, out + back).host, dst, size) == Read(w.host, src, size)
  {
    ExecSeqConcat(env, w, out, back);
    WriteIsOneCopy(env, w, out, ps, ve, src, size);
    var w1 := ExecSeq(env, w, out);
    ReadIsOneCopy(env, w1, back, qs, dst, ve, size);
    assert Read(w1.ve, ve, size) == Read(w.host, src, size);
  }
}
