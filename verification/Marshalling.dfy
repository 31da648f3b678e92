/** Arguments of a VE call: register values, the stack image, and the copy-out after the call
(CallArgs.cpp, CallArgs.hpp). */
module Marshalling {
  import opened Memory
  import opened Protocol

  const NUM_ARGS_ON_REGISTER: nat := 8
  const PARAM_AREA_OFFSET: nat := 176
  const TWO31: int := 0x8000_0000
  const TWO32: int := 0x1_0000_0000

  /** An integer (or the 8 bytes of a double or float) passed by value, or a host buffer passed on the stack. */
  datatype Arg =
    | Scalar(width: nat, value: int)
    | OnStack(buff: nat, len: nat, cin: bool, cout: bool)
  {
    predicate Ok() {
      match this
      case Scalar(w, _) => w == 1 || w == 2 || w == 4 || w == 8
      case OnStack(_, _, i, o) => i || o
    }

    /** Length padded to whole words. */
    function SizeOnStack(): (r: nat)
      ensures r % 8 == 0
    {
      match this
      case Scalar(_, _) => 0
      case OnStack(_, len, _, _) => if len % 8 > 0 then len + (8 - len % 8) else len
    }
  }

  predicate ArgsOk(args: seq<Arg>) { forall i :: 0 <= i < |args| ==> args[i].Ok() }

  // ---- little endian ----

  function LE(v: int, k: nat): (s: seq<Byte>)
    ensures |s| == k
    decreases k
  {
    if k == 0 then [] else [v % 256] + LE(v / 256, k - 1)
  }

  function FromLE(s: seq<Byte>): nat {
    if s == [] then 0 else s[0] + 256 * FromLE(s[1..])
  }

  function Pow256(k: nat): (p: nat)
    ensures p > 0
  {
    if k == 0 then 1 else 256 * Pow256(k - 1)
  }

  lemma {:induction false} LERoundTrip(v: int, k: nat)
    ensures FromLE(LE(v, k)) == v % Pow256(k)
    decreases k
  {
    if k > 0 {
      LERoundTrip(v / 256, k - 1);
      assert LE(v, k)[1..] == LE(v / 256, k - 1);
      SplitMod(v, Pow256(k - 1));
    }
  }

  lemma SplitMod(v: int, p: int)
    requires p > 0
    ensures v % (256 * p) == v % 256 + 256 * ((v / 256) % p)
  {
    var q := v / 256;
    var r := v % 256 + 256 * (q % p);
    assert q == p * (q / p) + q % p;
    assert v == (256 * p) * (q / p) + r by {
      assert 256 * (p * (q / p)) == (256 * p) * (q / p);
    }
    assert 0 <= r < 256 * p;
    ModIs(v, 256 * p, q / p, r);
  }

  lemma ModIs(v: int, m: int, q: int, r: int)
    requires m > 0 && v == m * q + r && 0 <= r < m
    ensures v % m == r
  {
    var q', r' := v / m, v % m;
    assert v == m * q' + r' && 0 <= r' < m;
    Distribute(m, q, q');
    NoMultiple(m, q - q', r' - r);
  }

  lemma Distribute(m: int, a: int, b: int)
    ensures m * (a - b) == m * a - m * b
  {
  }

  lemma NoMultiple(m: int, d: int, e: int)
    requires m > 0 && m * d == e && -m < e < m
    ensures e == 0
  {
  }

  lemma {:induction false} FromLEPadded(s: seq<Byte>, n: nat)
    ensures FromLE(s + Zeros(n)) == FromLE(s)
  {
    if s == [] {
      assert s + Zeros(n) == Zeros(n);
      if n > 0 {
        assert Zeros(n)[1..] == [] + Zeros(n - 1);
        FromLEPadded([], n - 1);
      }
    } else {
      assert (s + Zeros(n))[1..] == s[1..] + Zeros(n);
      FromLEPadded(s[1..], n);
    }
  }

  // ---- layout ----

  function W64(x: int): Word { x % TWO64 }

  function AreaSize(n: nat): nat { PARAM_AREA_OFFSET + 8 * n }

  function DataSize(args: seq<Arg>, i: nat): (r: nat)
    requires i <= |args|
    ensures r % 8 == 0
  {
    if i == 0 then 0 else DataSize(args, i - 1) + args[i - 1].SizeOnStack()
  }

  /** Offset of the data of argument `i` in the image; for `i == |args|`, the end of the data. */
  function Off(args: seq<Arg>, i: nat): (r: nat)
    requires i <= |args|
    ensures r % 8 == 0
  {
    AreaSize(|args|) + DataSize(args, i)
  }

  function Round16(x: nat): (r: nat)
    ensures x <= r < x + 16 && r % 16 == 0
  {
    (x + 15) / 16 * 16
  }

  /** The 8 bytes an argument puts into its slot of the parameter area. */
  function Slot(args: seq<Arg>, j: nat, top: Word): (s: seq<Byte>)
    requires j < |args| && ArgsOk(args)
    ensures |s| == 8
  {
    match args[j]
    case Scalar(w, v) => assert args[j].Ok(); LE(v, w) + Zeros(8 - w)
    case OnStack(_, _, _, _) => LE(W64(top + Off(args, j)), 8)
  }

  /** The register save area and the parameter slots, those of the arguments from 8 up to `k` filled in. */
  function ParamArea(args: seq<Arg>, top: Word, k: nat): (s: seq<Byte>)
    requires k <= |args| && ArgsOk(args)
    ensures |s| == AreaSize(|args|)
  {
    seq(AreaSize(|args|), x requires 0 <= x < AreaSize(|args|) =>
      var j := (x - PARAM_AREA_OFFSET) / 8;
      if x >= PARAM_AREA_OFFSET && NUM_ARGS_ON_REGISTER <= j < k then Slot(args, j, top)[(x - PARAM_AREA_OFFSET) % 8] else 0)
  }

  /** IN bytes or zeros, padded to whole words. */
  function DataOf(host: Mem, a: Arg): (s: seq<Byte>)
    ensures |s| == a.SizeOnStack()
  {
    match a
    case Scalar(_, _) => []
    case OnStack(buff, len, cin, _) =>
      (if cin then Read(host, buff, len) else Zeros(len)) + Zeros(a.SizeOnStack() - len)
  }

  function DataArea(host: Mem, args: seq<Arg>, k: nat): (s: seq<Byte>)
    requires k <= |args|
    ensures |s| == DataSize(args, k)
  {
    if k == 0 then [] else DataArea(host, args, k - 1) + DataOf(host, args[k - 1])
  }

  function Unpadded(host: Mem, args: seq<Arg>, top: Word): (s: seq<Byte>)
    requires ArgsOk(args)
    ensures |s| == Off(args, |args|)
  {
    ParamArea(args, top, |args|) + DataArea(host, args, |args|)
  }

  /** The stack image. */
  function Image(host: Mem, args: seq<Arg>, top: Word): (s: seq<Byte>)
    requires ArgsOk(args)
    ensures |s| == Round16(Off(args, |args|))
  {
    Unpadded(host, args, top) + Zeros(Round16(Off(args, |args|)) - Off(args, |args|))
  }

  /** Something has to be copied to the VE stack before the call, or back after it. */
  predicate CopiesIn(args: seq<Arg>, k: nat)
    requires k <= |args|
  {
    exists i :: 0 <= i < k && (if args[i].OnStack? then args[i].cin else i >= NUM_ARGS_ON_REGISTER)
  }

  predicate CopiesOut(args: seq<Arg>, k: nat)
    requires k <= |args|
  {
    exists i :: 0 <= i < k && args[i].OnStack? && args[i].cout
  }

  function RegVal(args: seq<Arg>, i: nat, top: Word): Word
    requires i < |args|
  {
    match args[i]
    case Scalar(_, v) => W64(v)
    case OnStack(_, _, _, _) => W64(top + Off(args, i))
  }

  function Regs(args: seq<Arg>, top: Word): (r: seq<Word>)
    ensures |r| == if |args| < 8 then |args| else 8
  {
    seq(if |args| < 8 then |args| else 8, i requires 0 <= i < |args| => RegVal(args, i, top))
  }

  /** The copy-out closures, in argument order. */
  function Outs(args: seq<Arg>, k: nat): (r: seq<CopyOut>)
    requires k <= |args|
  {
    if k == 0 then []
    else
      var a := args[k - 1];
      Outs(args, k - 1) + if a.OnStack? && a.cout then [CopyOut(a.buff, a.len, Off(args, k - 1))] else []
  }

  // ---- sizes as the code computes them ----

  /** Conversion to a 32-bit int. */
  function Int32(x: int): int { (x + TWO31) % TWO32 - TWO31 }

  /** std::accumulate runs in an int although each step adds a size_t. */
  function Accumulated(args: seq<Arg>, i: nat): int
    requires i <= |args|
  {
    if i == 0 then 0 else Int32(W64(W64(Accumulated(args, i - 1)) + args[i - 1].SizeOnStack()))
  }

  /** stack_size as getStackImage computes it. */
  function CodeSize(args: seq<Arg>): nat {
    var size := W64(Int32(PARAM_AREA_OFFSET + 8 * |args| + Accumulated(args, |args|)));
    W64(size + 15) / 16 * 16
  }

  lemma Int32Drops(x: int)
    ensures Int32(x) == x - TWO32 * ((x + TWO31) / TWO32)
    ensures -TWO31 <= Int32(x) < TWO31
  {
  }

  lemma Int32Unique(x: int, r: int, k: int)
    requires x == r + TWO32 * k && -TWO31 <= r < TWO31
    ensures Int32(x) == r
  {
  }

  lemma {:induction false} AccumulatedIs(args: seq<Arg>, i: nat)
    requires i <= |args|
    ensures Accumulated(args, i) == Int32(DataSize(args, i))
  {
    if i > 0 {
      AccumulatedIs(args, i - 1);
      var d := DataSize(args, i - 1);
      var s := args[i - 1].SizeOnStack();
      var a := Int32(d);
      Int32Drops(d);
      var y := W64(W64(a) + s);
      var k1 := (d + TWO31) / TWO32;
      var k2 := a / TWO64;
      var k3 := (W64(a) + s) / TWO64;
      assert y == d + s - TWO32 * k1 - TWO64 * (k2 + k3);
      Int32Drops(d + s);
      Int32Unique(y, Int32(d + s), (d + s + TWO31) / TWO32 - k1 - TWO32 * (k2 + k3));
    }
  }

  /** The size computed up front is the length of the image that is built, so that the assertion in
  setup holds, exactly if everything before rounding stays below 2^31 bytes.  (2^62 bounds std::string.) */
  lemma SizeAgreement(host: Mem, args: seq<Arg>, top: Word)
    requires ArgsOk(args) && Off(args, |args|) < 0x4000_0000_0000_0000
    ensures CodeSize(args) == |Image(host, args, top)| <==> Off(args, |args|) < TWO31
  {
    AccumulatedIs(args, |args|);
    var n := AreaSize(|args|);
    var d := DataSize(args, |args|);
    var t := n + d;
    Int32Drops(d);
    Int32Drops(t);
    var k1 := (d + TWO31) / TWO32;
    var k := (t + TWO31) / TWO32;
    Int32Unique(n + Int32(d), Int32(t), k - k1);
    assert CodeSize(args) == W64(W64(Int32(t)) + 15) / 16 * 16;
    RoundedSizes(t, k, Int32(t));
  }

  lemma RoundedSizes(t: nat, k: int, r: int)
    requires t < 0x4000_0000_0000_0000 && r == t - TWO32 * k && -TWO31 <= r < TWO31
    ensures W64(W64(r) + 15) / 16 * 16 == Round16(t) <==> t < TWO31
  {
    if r >= 0 {
      assert W64(r) == r;
      assert (r + 15) / 16 == (t + 15) / 16 - 0x1000_0000 * k;
    } else {
      assert W64(r) == r + TWO64;
    }
  }

  // ---- placement ----

  lemma {:induction false} DataOrdered(args: seq<Arg>, i: nat, j: nat)
    requires i < j <= |args|
    ensures DataSize(args, i) + args[i].SizeOnStack() <= DataSize(args, j)
  {
    if i + 1 < j { DataOrdered(args, i, j - 1); }
  }

  lemma {:induction false} DataAt(host: Mem, args: seq<Arg>, i: nat, k: nat)
    requires i < k <= |args|
    ensures DataSize(args, i) + args[i].SizeOnStack() <= DataSize(args, k)
    ensures DataArea(host, args, k)[DataSize(args, i)..DataSize(args, i) + args[i].SizeOnStack()] == DataOf(host, args[i])
  {
    hide DataOf, Arg.SizeOnStack, DataArea, DataSize;
    var a, b := DataArea(host, args, k - 1), DataOf(host, args[k - 1]);
    DataMore(host, args, k - 1);
    if i + 1 < k {
      DataAt(host, args, i, k - 1);
      SliceLeft(a, b, DataSize(args, i), DataSize(args, i) + args[i].SizeOnStack());
    } else {
      SliceRight(a, b);
    }
  }

  lemma DataMore(host: Mem, args: seq<Arg>, k: nat)
    requires k < |args|
    ensures DataArea(host, args, k + 1) == DataArea(host, args, k) + DataOf(host, args[k])
    ensures DataSize(args, k + 1) == DataSize(args, k) + args[k].SizeOnStack()
  {
  }

  lemma SliceLeft(a: seq<Byte>, b: seq<Byte>, from: nat, to: nat)
    requires from <= to <= |a|
    ensures (a + b)[from..to] == a[from..to]
  {
  }

  lemma SliceRight(a: seq<Byte>, b: seq<Byte>)
    ensures (a + b)[|a|..|a| + |b|] == b
  {
  }

  lemma ImageIndex(host: Mem, args: seq<Arg>, top: Word, x: nat)
    requires ArgsOk(args) && x < Off(args, |args|)
    ensures Image(host, args, top)[x] ==
      if x < AreaSize(|args|) then ParamArea(args, top, |args|)[x] else DataArea(host, args, |args|)[x - AreaSize(|args|)]
  {
    hide ParamArea, DataArea;
  }

  lemma ImageDataAt(host: Mem, args: seq<Arg>, top: Word, i: nat)
    requires ArgsOk(args) && i < |args|
    ensures Off(args, i) + args[i].SizeOnStack() <= Off(args, |args|)
    ensures Read(Image(host, args, top), Off(args, i), args[i].SizeOnStack()) == DataOf(host, args[i])
  {
    hide Image, DataArea, ParamArea, DataOf, DataSize;
    DataAt(host, args, i, |args|);
    var img := Image(host, args, top);
    var data := DataArea(host, args, |args|);
    var n := args[i].SizeOnStack();
    forall x | 0 <= x < n ensures Read(img, Off(args, i), n)[x] == DataOf(host, args[i])[x] {
      ImageIndex(host, args, top, Off(args, i) + x);
      assert data[DataSize(args, i)..DataSize(args, i) + n][x] == data[DataSize(args, i) + x];
    }
  }

  /** A stack argument has its own word-aligned region inside the image, beyond the parameter area and apart
  from the regions of the other arguments, and the region holds its IN bytes or zeros. */
  lemma StackArgPlacement(host: Mem, args: seq<Arg>, top: Word, i: nat)
    requires ArgsOk(args) && i < |args| && args[i].OnStack?
    ensures Off(args, i) % 8 == 0 && AreaSize(|args|) <= Off(args, i)
    ensures Off(args, i) + args[i].len <= |Image(host, args, top)|
    ensures forall j :: 0 <= j < |args| && j != i && args[j].OnStack? ==>
      Apart(Region(Off(args, i), args[i].SizeOnStack()), Region(Off(args, j), args[j].SizeOnStack()))
    ensures Read(Image(host, args, top), Off(args, i), args[i].len) ==
      if args[i].cin then Read(host, args[i].buff, args[i].len) else Zeros(args[i].len)
  {
    ImageDataAt(host, args, top, i);
    forall j | 0 <= j < |args| && j != i && args[j].OnStack?
      ensures Apart(Region(Off(args, i), args[i].SizeOnStack()), Region(Off(args, j), args[j].SizeOnStack()))
    {
      if i < j { DataOrdered(args, i, j); } else { DataOrdered(args, j, i); }
    }
    var img := Image(host, args, top);
    var d := DataOf(host, args[i]);
    forall x | 0 <= x < args[i].len
      ensures Read(img, Off(args, i), args[i].len)[x] ==
        (if args[i].cin then Read(host, args[i].buff, args[i].len) else Zeros(args[i].len))[x]
    {
      assert Read(img, Off(args, i), args[i].SizeOnStack())[x] == d[x];
    }
  }

  lemma ParamAreaAt(args: seq<Arg>, top: Word, k: nat, j: nat, b: nat)
    requires ArgsOk(args) && k <= |args| && j < |args| && b < 8
    ensures ParamArea(args, top, k)[PARAM_AREA_OFFSET + 8 * j + b] ==
      if NUM_ARGS_ON_REGISTER <= j < k then Slot(args, j, top)[b] else 0
  {
    hide Slot;
    var x := PARAM_AREA_OFFSET + 8 * j + b;
    assert (x - PARAM_AREA_OFFSET) / 8 == j && (x - PARAM_AREA_OFFSET) % 8 == b;
  }

  lemma SlotAt(host: Mem, args: seq<Arg>, top: Word, j: nat)
    requires ArgsOk(args) && NUM_ARGS_ON_REGISTER <= j < |args|
    ensures Read(Image(host, args, top), PARAM_AREA_OFFSET + 8 * j, 8) == Slot(args, j, top)
  {
    hide Image, ParamArea, Slot, DataArea;
    var img := Image(host, args, top);
    var d := Read(img, PARAM_AREA_OFFSET + 8 * j, 8);
    forall b | 0 <= b < 8 ensures d[b] == Slot(args, j, top)[b] {
      ImageIndex(host, args, top, PARAM_AREA_OFFSET + 8 * j + b);
      ParamAreaAt(args, top, |args|, j, b);
    }
  }

  lemma Pow256Of8()
    ensures Pow256(8) == TWO64
  {
    assert Pow256(4) == 0x1_0000_0000;
    assert Pow256(5) == 0x100_0000_0000;
    assert Pow256(6) == 0x1_0000_0000_0000;
    assert Pow256(7) == 0x100_0000_0000_0000;
  }

  /** Every argument from the ninth on can be read in its slot of the image: a pointer to the data of a
  stack argument, or a scalar in as many bytes as it has, zero-extended. */
  lemma SlotHolds(host: Mem, args: seq<Arg>, top: Word, j: nat)
    requires ArgsOk(args) && NUM_ARGS_ON_REGISTER <= j < |args|
    ensures FromLE(Read(Image(host, args, top), PARAM_AREA_OFFSET + 8 * j, 8)) ==
      match args[j]
      case Scalar(w, v) => v % Pow256(w)
      case OnStack(_, _, _, _) => W64(top + Off(args, j))
  {
    hide Image, FromLE, LE, Pow256;
    SlotAt(host, args, top, j);
    match args[j]
    case Scalar(w, v) =>
      assert args[j].Ok();
      FromLEPadded(LE(v, w), 8 - w);
      LERoundTrip(v, w);
    case OnStack(_, _, _, _) =>
      LERoundTrip(W64(top + Off(args, j)), 8);
      Pow256Of8();
  }

  const TWO63: int := 0x8000_0000_0000_0000

  /** A word read as a signed number. */
  function Signed(w: Word): int { if w >= TWO63 then w - TWO64 else w }

  /** What the register of an argument holds: a scalar sign-extended to 64 bits, or the VE address of the data. */
  ghost predicate RegHolds(r: Word, a: Arg, image: seq<Byte>, top: Word, host: Mem) {
    match a
    case Scalar(_, v) => (-TWO63 <= v < TWO63 ==> Signed(r) == v) && (0 <= v < TWO64 ==> r == v)
    case OnStack(buff, len, cin, _) =>
      top + |image| < TWO64 ==>
        top <= r && r - top + len <= |image| && Read(image, r - top, len) == if cin then Read(host, buff, len) else Zeros(len)
  }

  /** Each of the first eight arguments is in its register: a scalar by value, and a stack argument by the address
  at which its bytes are when the image is at the stack top. */
  lemma RegisterHolds(host: Mem, args: seq<Arg>, top: Word, i: nat)
    requires ArgsOk(args) && i < |args| && i < 8
    ensures i < |Regs(args, top)| && RegHolds(Regs(args, top)[i], args[i], Image(host, args, top), top, host)
  {
    hide Image, Off;
    match args[i]
    case Scalar(_, v) =>
      if -TWO63 <= v < TWO64 { Wrapped(v, TWO64); }
    case OnStack(_, len, _, _) =>
      StackArgPlacement(host, args, top, i);
      OffInside(host, args, top, i);
      if top + |Image(host, args, top)| < TWO64 { Wrapped(top + Off(args, i), TWO64); }
  }

  lemma OffInside(host: Mem, args: seq<Arg>, top: Word, i: nat)
    requires ArgsOk(args) && i < |args|
    ensures Off(args, i) <= |Image(host, args, top)|
  {
    DataOrdered(args, i, |args|);
  }

  /** A scalar reaches the kernel with the same 64 bits through a slot, as argument `j` of one call, and through a
  register, as argument `i` of another, if and only if it is not a negative number narrower than 8 bytes: registers
  sign-extend, slots do not. */
  lemma SlotAgreesWithRegister(host: Mem, args: seq<Arg>, top: Word, j: nat, other: seq<Arg>, top': Word, i: nat)
    requires ArgsOk(args) && NUM_ARGS_ON_REGISTER <= j < |args| && i < |other| && i < 8 && other[i] == args[j] && args[j].Scalar?
    requires -(2 * args[j].value) <= Pow256(args[j].width) && args[j].value < Pow256(args[j].width)
    ensures FromLE(Read(Image(host, args, top), PARAM_AREA_OFFSET + 8 * j, 8)) == Regs(other, top')[i]
      <==> args[j].value >= 0 || args[j].width == 8
  {
    hide Image, FromLE, Read;
    assert args[j].Ok();
    SlotHolds(host, args, top, j);
    Extensions(args[j].width, args[j].value);
  }

  /** Zero and sign extension to 64 bits. */
  lemma Extensions(width: nat, v: int)
    requires Scalar(width, v).Ok() && -(2 * v) <= Pow256(width) && v < Pow256(width)
    ensures v % Pow256(width) == W64(v) <==> v >= 0 || width == 8
  {
    Pow256Of8();
    assert Pow256(1) == 256 && Pow256(2) == 0x1_0000 && Pow256(4) == 0x1_0000_0000;
    hide Pow256;
    if width == 1 {
      Wrapped(v, 256);
    } else if width == 2 {
      Wrapped(v, 0x1_0000);
    } else if width == 4 {
      Wrapped(v, 0x1_0000_0000);
    }
    Wrapped(v, TWO64);
  }

  lemma Wrapped(v: int, m: int)
    requires m > 0 && -m <= v < m
    ensures v % m == if v < 0 then v + m else v
  {
    ModIs(v, m, if v < 0 then -1 else 0, if v < 0 then v + m else v);
  }

  // ---- copy-out ----

  /** Argument `i` is written back to the host after the call. */
  predicate IsOut(args: seq<Arg>, i: nat)
    requires i < |args|
  {
    args[i].OnStack? && args[i].cout
  }

  /** Buffers written back do not overlap. */
  ghost predicate OutsApart(args: seq<Arg>) {
    forall i, j :: 0 <= i < j < |args| && IsOut(args, i) && IsOut(args, j) ==>
      Apart(Region(args[i].buff, args[i].len), Region(args[j].buff, args[j].len))
  }

  lemma {:induction false} OutsInRange(args: seq<Arg>, k: nat, hostLen: nat)
    requires k <= |args|
    requires forall i :: 0 <= i < |args| && IsOut(args, i) ==> args[i].buff + args[i].len <= hostLen
    ensures OutsOk(Outs(args, k), Round16(Off(args, |args|)), hostLen)
  {
    if k > 0 {
      OutsInRange(args, k - 1, hostLen);
      DataOrdered(args, k - 1, |args|);
    }
  }

  /** Where OUT buffers overlap the last argument wins. */
  lemma {:induction false} LastOutWins(host: Mem, image: seq<Byte>, args: seq<Arg>, k: nat, i: nat, x: nat)
    requires i < k <= |args| && IsOut(args, i) && Region(args[i].buff, args[i].len).Has(x)
    requires forall j :: i < j < k && IsOut(args, j) ==> !Region(args[j].buff, args[j].len).Has(x)
    requires forall j :: 0 <= j < k && IsOut(args, j) ==> args[j].buff + args[j].len <= |host| && Off(args, j) + args[j].len <= |image|
    ensures x < |host| && ApplyOuts(host, image, Outs(args, k))[x] == image[Off(args, i) + x - args[i].buff]
  {
    hide Off, ApplyOuts, Outs, Write, Read;
    OutsSnoc(host, image, args, k);
    if i < k - 1 { LastOutWins(host, image, args, k - 1, i, x); }
  }

  lemma OutsSnoc(host: Mem, image: seq<Byte>, args: seq<Arg>, k: nat)
    requires 0 < k <= |args|
    ensures var a := args[k - 1];
      ApplyOuts(host, image, Outs(args, k)) ==
      if IsOut(args, k - 1) then Write(ApplyOuts(host, image, Outs(args, k - 1)), a.buff, Read(image, Off(args, k - 1), a.len))
      else ApplyOuts(host, image, Outs(args, k - 1))
  {
    if IsOut(args, k - 1) {
      assert Outs(args, k)[..|Outs(args, k)| - 1] == Outs(args, k - 1);
    } else {
      assert Outs(args, k) == Outs(args, k - 1);
    }
  }

  /** Bytes that belong to no OUT buffer keep their value. */
  lemma {:induction false} CopyOutElsewhere(host: Mem, image: seq<Byte>, args: seq<Arg>, k: nat, x: nat)
    requires k <= |args| && x < |host|
    requires forall i :: 0 <= i < k && IsOut(args, i) ==> !Region(args[i].buff, args[i].len).Has(x)
    ensures ApplyOuts(host, image, Outs(args, k))[x] == host[x]
  {
    if k > 0 {
      hide ApplyOuts, Outs;
      CopyOutElsewhere(host, image, args, k - 1, x);
      OutsSnoc(host, image, args, k);
    }
  }

  lemma WriteApart(m: Mem, a: nat, n: nat, b: nat, d: seq<Byte>)
    requires a + n <= |m| && Apart(Region(a, n), Region(b, |d|))
    ensures Read(Write(m, b, d), a, n) == Read(m, a, n)
  {
  }

  lemma ReadWritten(m: Mem, a: nat, d: seq<Byte>)
    requires a + |d| <= |m|
    ensures Read(Write(m, a, d), a, |d|) == d
  {
  }

  /** Copy-out sets each OUT or INOUT buffer to the image bytes at its place. */
  lemma {:induction false} CopyOutDelivers(host: Mem, image: seq<Byte>, args: seq<Arg>, k: nat, i: nat)
    requires i < k <= |args| && IsOut(args, i) && OutsApart(args)
    requires args[i].buff + args[i].len <= |host|
    ensures Read(ApplyOuts(host, image, Outs(args, k)), args[i].buff, args[i].len) == Read(image, Off(args, i), args[i].len)
  {
    hide ApplyOuts, Outs, Off;
    var a := args[i];
    var before := ApplyOuts(host, image, Outs(args, k - 1));
    OutsSnoc(host, image, args, k);
    if i == k - 1 {
      ReadWritten(before, a.buff, Read(image, Off(args, i), a.len));
    } else {
      CopyOutDelivers(host, image, args, k - 1, i);
      if IsOut(args, k - 1) {
        WriteApart(before, a.buff, a.len, args[k - 1].buff, Read(image, Off(args, k - 1), args[k - 1].len));
      }
    }
  }

  /** A call that changes nothing on the VE stack leaves every INOUT buffer as it was. */
  lemma IdentityRoundTrip(host: Mem, args: seq<Arg>, top: Word, i: nat)
    requires ArgsOk(args) && i < |args| && IsOut(args, i) && args[i].cin && OutsApart(args)
    requires args[i].buff + args[i].len <= |host|
    ensures Read(ApplyOuts(host, Image(host, args, top), Outs(args, |args|)), args[i].buff, args[i].len)
         == Read(host, args[i].buff, args[i].len)
  {
    CopyOutDelivers(host, Image(host, args, top), args, |args|, i);
    StackArgPlacement(host, args, top, i);
  }

  // ---- building the image ----

  /** std::string::replace of `len` characters at `pos`. */
  function Replace(str: seq<Byte>, pos: nat, len: nat, with: seq<Byte>): seq<Byte>
    requires pos <= |str|
  {
    str[..pos] + with + if pos + len <= |str| then str[pos + len..] else []
  }

  /** set_value: put a little-endian value at an offset and zero the rest of its word. */
  function SetValue(str: seq<Byte>, offset: nat, value: int, width: nat): seq<Byte>
    requires width > 0
  {
    var s1 := if |str| < offset then str + Zeros(offset - |str|) else str;
    var s2 := Replace(s1, offset, width, LE(value, width));
    if width % 8 > 0 then
      var pad := 8 - width % 8;
      Replace(s2, offset + width, pad, Zeros(pad))
    else s2
  }

  lemma Around(a: seq<Byte>, b: seq<Byte>, c: seq<Byte>, n: nat)
    requires n <= |c|
    ensures (a + b + c)[..|a| + |b|] == a + b && (a + b + c)[|a| + |b| + n..] == c[n..]
  {
  }

  lemma ReplaceIs(str: seq<Byte>, pos: nat, len: nat, with: seq<Byte>)
    requires pos + len <= |str|
    ensures Replace(str, pos, len, with) == str[..pos] + with + str[pos + len..]
  {
  }

  lemma WriteIs(m: Mem, a: nat, d: seq<Byte>)
    requires a + |d| <= |m|
    ensures Write(m, a, d) == m[..a] + d + m[a + |d|..]
  {
  }

  lemma SetValueIsWrite(str: seq<Byte>, offset: nat, value: int, width: nat)
    requires 0 < width <= 8 && offset + 8 <= |str|
    ensures SetValue(str, offset, value, width) == Write(str, offset, LE(value, width) + Zeros(8 - width))
  {
    hide LE, Zeros, Replace, Write;
    var a, le, z, c := str[..offset], LE(value, width), Zeros(8 - width), str[offset + 8..];
    var rest := str[offset + width..];
    ReplaceIs(str, offset, width, le);
    if width < 8 {
      Around(a, le, rest, 8 - width);
      ReplaceIs(a + le + rest, offset + width, 8 - width, z);
    } else {
      assert a + le + z == a + le;
    }
    assert rest[8 - width..] == c;
    WriteIs(str, offset, le + z);
    assert a + le + z + c == a + (le + z) + c;
  }

  /** Filling in slot `k` touches neither the other slots nor the data behind the parameter area. */
  lemma FillSlot(args: seq<Arg>, top: Word, k: nat, data: seq<Byte>)
    requires ArgsOk(args) && NUM_ARGS_ON_REGISTER <= k < |args|
    ensures Write(ParamArea(args, top, k) + data, PARAM_AREA_OFFSET + 8 * k, Slot(args, k, top))
         == ParamArea(args, top, k + 1) + data
  {
    hide Slot;
    var was := ParamArea(args, top, k) + data;
    var now := Write(was, PARAM_AREA_OFFSET + 8 * k, Slot(args, k, top));
    var want := ParamArea(args, top, k + 1) + data;
    forall x | 0 <= x < |want| ensures now[x] == want[x] {
      if PARAM_AREA_OFFSET <= x < AreaSize(|args|) {
        var j := (x - PARAM_AREA_OFFSET) / 8;
        var b := (x - PARAM_AREA_OFFSET) % 8;
        ParamAreaAt(args, top, k, j, b);
        ParamAreaAt(args, top, k + 1, j, b);
      }
    }
  }

  lemma SkipSlot(args: seq<Arg>, top: Word, k: nat)
    requires ArgsOk(args) && k < |args| && k < NUM_ARGS_ON_REGISTER
    ensures ParamArea(args, top, k) == ParamArea(args, top, k + 1)
  {
    hide Slot;
  }

  /** The image while argument `n` is being added. */
  function Partial(host: Mem, args: seq<Arg>, top: Word, k: nat, m: nat): (s: seq<Byte>)
    requires ArgsOk(args) && k <= |args| && m <= |args|
    ensures |s| == Off(args, m)
  {
    ParamArea(args, top, k) + DataArea(host, args, m)
  }

  lemma ScalarStep(host: Mem, args: seq<Arg>, top: Word, n: nat)
    requires ArgsOk(args) && n < |args| && args[n].Scalar?
    ensures (if n < NUM_ARGS_ON_REGISTER then Partial(host, args, top, n, n)
             else SetValue(Partial(host, args, top, n, n), PARAM_AREA_OFFSET + 8 * n, args[n].value, args[n].width))
         == Partial(host, args, top, n + 1, n + 1)
  {
    hide ParamArea, SetValue, LE;
    assert args[n].Ok();
    assert DataArea(host, args, n + 1) == DataArea(host, args, n);
    if n < NUM_ARGS_ON_REGISTER { SkipSlot(args, top, n); }
    else {
      SetValueIsWrite(Partial(host, args, top, n, n), PARAM_AREA_OFFSET + 8 * n, args[n].value, args[n].width);
      FillSlot(args, top, n, DataArea(host, args, n));
    }
  }

  lemma StackStep(host: Mem, args: seq<Arg>, top: Word, n: nat)
    requires ArgsOk(args) && n < |args| && args[n].OnStack?
    ensures (if n < NUM_ARGS_ON_REGISTER then Partial(host, args, top, n, n + 1)
             else SetValue(Partial(host, args, top, n, n + 1), PARAM_AREA_OFFSET + 8 * n, W64(top + Off(args, n)), 8))
         == Partial(host, args, top, n + 1, n + 1)
  {
    hide ParamArea, DataArea, SetValue, LE;
    if n < NUM_ARGS_ON_REGISTER { SkipSlot(args, top, n); }
    else {
      SetValueIsWrite(Partial(host, args, top, n, n + 1), PARAM_AREA_OFFSET + 8 * n, W64(top + Off(args, n)), 8);
      assert LE(W64(top + Off(args, n)), 8) + Zeros(0) == Slot(args, n, top);
      FillSlot(args, top, n, DataArea(host, args, n + 1));
    }
  }

  lemma AppendData(host: Mem, args: seq<Arg>, top: Word, n: nat)
    requires ArgsOk(args) && n < |args| && args[n].OnStack?
    ensures var a := args[n];
      var body := if a.cin then Read(host, a.buff, a.len) else Zeros(a.len);
      Partial(host, args, top, n, n) + body + (if a.len % 8 > 0 then Zeros(8 - a.len % 8) else [])
      == Partial(host, args, top, n, n + 1)
  {
    hide ParamArea;
    var a := args[n];
    var pad := if a.len % 8 > 0 then Zeros(8 - a.len % 8) else [];
    assert pad == Zeros(a.SizeOnStack() - a.len);
  }

  class CallArgs {
    var arguments: seq<Arg>
    var vemva: seq<Word>
    var stackTop: Word
    var stackSize: nat
    var stackBuf: seq<Byte>
    var copiedIn: bool
    var copiedOut: bool

    constructor (args: seq<Arg>)
      ensures arguments == args && vemva == [] && stackBuf == []
    {
      arguments, vemva, stackTop, stackSize, stackBuf, copiedIn, copiedOut := args, [], 0, 0, [], false, false;
    }

    /** The first `k` stack arguments know where their data is on the VE. */
    ghost predicate Placed(k: nat)
      reads this
    {
      && k <= |arguments| == |vemva|
      && forall i :: 0 <= i < k && arguments[i].OnStack? ==> vemva[i] == W64(stackTop + Off(arguments, i))
    }

    /** setStackImage of argument `n`. */
    method SetStackImage(host: Mem, stack: seq<Byte>, n: nat) returns (stack': seq<Byte>, cin: bool, cout: bool)
      requires ArgsOk(arguments) && n < |arguments| && Placed(n)
      requires stack == Partial(host, arguments, stackTop, n, n)
      modifies this`vemva
      ensures Placed(n + 1)
      ensures stack' == Partial(host, arguments, stackTop, n + 1, n + 1)
      ensures cin == if arguments[n].OnStack? then arguments[n].cin else n >= NUM_ARGS_ON_REGISTER
      ensures cout == IsOut(arguments, n)
    {
      hide Partial, SetValue, DataSize;
      assert arguments[n].Ok();
      match arguments[n] {
        case Scalar(width, value) =>
          ScalarStep(host, arguments, stackTop, n);
          cin, cout, stack' := false, false, stack;
          if n >= NUM_ARGS_ON_REGISTER {
            cin := true;
            stack' := SetValue(stack, PARAM_AREA_OFFSET + 8 * n, value, width);
          }
        case OnStack(buff, len, i, o) =>
          AppendData(host, arguments, stackTop, n);
          StackStep(host, arguments, stackTop, n);
          vemva := vemva[n := W64(stackTop + |stack|)];
          cin, cout := i, o;
          if i { stack' := stack + Read(host, buff, len); } else { stack' := stack + Zeros(len); }
          if len % 8 > 0 { stack' := stack' + Zeros(8 - len % 8); } else { assert stack' + [] == stack'; }
          if n >= NUM_ARGS_ON_REGISTER {
            stack' := SetValue(stack', PARAM_AREA_OFFSET + 8 * n, vemva[n], 8);
          }
      }
    }

    /** The precomputed stack size: the sizes of the stack data summed up in an int, and rounded up to 16. */
    method SumSizes() returns (size: nat)
      requires ArgsOk(arguments)
      ensures size == CodeSize(arguments)
    {
      var acc := 0;
      for i := 0 to |arguments|
        invariant acc == Accumulated(arguments, i)
      {
        acc := Int32(W64(W64(acc) + arguments[i].SizeOnStack()));
      }
      var sum: int := W64(Int32(PARAM_AREA_OFFSET + 8 * |arguments| + acc));
      size := W64(sum + 15) / 16 * 16;
    }

    /** getStackImage. */
    method GetStackImage(sp: Word, host: Mem) returns (stack: seq<Byte>)
      requires ArgsOk(arguments)
      modifies this
      ensures arguments == old(arguments) && stackBuf == old(stackBuf)
      ensures stackSize == CodeSize(arguments) && stackTop == W64(sp - stackSize)
      ensures stack == Image(host, arguments, stackTop)
      ensures copiedIn == CopiesIn(arguments, |arguments|) && copiedOut == CopiesOut(arguments, |arguments|)
      ensures Placed(|arguments|)
    {
      hide Partial, DataSize, Off, Image, CopiesIn, CopiesOut, CodeSize, Round16, Zeros, Nowhere, ArgsOk;
      stackSize := SumSizes();
      stackTop := W64(sp - stackSize);
      stack := Zeros(AreaSize(|arguments|));
      vemva := Nowhere(|arguments|);
      copiedIn, copiedOut := false, false;
      EmptyImage(host, arguments, stackTop);
      for n := 0 to |arguments|
        invariant arguments == old(arguments) && stackBuf == old(stackBuf) && Placed(n)
        invariant stackSize == CodeSize(arguments) && stackTop == W64(sp - stackSize)
        invariant stack == Partial(host, arguments, stackTop, n, n)
        invariant copiedIn == CopiesIn(arguments, n) && copiedOut == CopiesOut(arguments, n)
      {
        var i, o;
        stack, i, o := SetStackImage(host, stack, n);
        MoreCopies(arguments, n);
        copiedIn := copiedIn || i;
        copiedOut := copiedOut || o;
      }
      var grow := Round16(|stack|) - |stack|;
      PaddedImage(host, arguments, stackTop);
      stack := stack + Zeros(grow);
    }

    /** setup; `ok` is the assertion that the two sizes agree. */
    method Setup(sp: Word, host: Mem) returns (ok: bool)
      requires ArgsOk(arguments) && Off(arguments, |arguments|) < 0x4000_0000_0000_0000
      modifies this
      ensures arguments == old(arguments) && Placed(|arguments|)
      ensures ok <==> Off(arguments, |arguments|) < TWO31
      ensures ok ==>
        && stackSize == Round16(Off(arguments, |arguments|)) && stackTop == W64(sp - stackSize)
        && stackBuf == Image(host, arguments, stackTop)
        && copiedIn == CopiesIn(arguments, |arguments|) && copiedOut == CopiesOut(arguments, |arguments|)
    {
      hide Image, CodeSize, Off, CopiesIn, CopiesOut;
      var img := GetStackImage(sp, host);
      SizeAgreement(host, arguments, stackTop);
      ok := stackSize == |img|;
      if ok { stackBuf := img; }
    }

    /** getRegVal: the first eight arguments, by value or by address. */
    method GetRegVal() returns (regs: seq<Word>)
      requires ArgsOk(arguments) && Placed(|arguments|)
      ensures regs == Regs(arguments, stackTop)
    {
      regs := [];
      var count := 0;
      while count < |arguments|
        invariant 0 <= count <= |arguments| && count <= NUM_ARGS_ON_REGISTER && |regs| == count
        invariant forall i :: 0 <= i < count ==> regs[i] == RegVal(arguments, i, stackTop)
      {
        if count >= NUM_ARGS_ON_REGISTER { break; }
        match arguments[count] {
          case Scalar(_, v) => regs := regs + [W64(v)];
          case OnStack(_, _, _, _) => regs := regs + [vemva[count]];
        }
        count := count + 1;
      }
    }

    /** copyout: the closures that bring OUT data back, none if nothing is copied out. */
    method CopyOuts() returns (outs: seq<CopyOut>)
      requires ArgsOk(arguments) && Placed(|arguments|) && Off(arguments, |arguments|) < TWO31
      requires copiedOut == CopiesOut(arguments, |arguments|)
      ensures outs == Outs(arguments, |arguments|)
    {
      hide CopiesOut, Off;
      outs := [];
      if !copiedOut { NoOuts(arguments, |arguments|); return; }
      for i := 0 to |arguments|
        invariant outs == Outs(arguments, i)
      {
        match arguments[i] {
          case Scalar(_, _) =>
          case OnStack(buff, len, _, out) =>
            if out {
              OffsetBack(arguments, stackTop, i);
              outs := outs + [CopyOut(buff, len, W64(vemva[i] - stackTop))];
            }
        }
      }
    }
  }

  function Nowhere(n: nat): (r: seq<Word>)
    ensures |r| == n
  {
    seq(n, _ => 0)
  }

  lemma EmptyImage(host: Mem, args: seq<Arg>, top: Word)
    requires ArgsOk(args)
    ensures Zeros(AreaSize(|args|)) == Partial(host, args, top, 0, 0)
    ensures !CopiesIn(args, 0) && !CopiesOut(args, 0)
  {
  }

  lemma PaddedImage(host: Mem, args: seq<Arg>, top: Word)
    requires ArgsOk(args)
    ensures var s := Partial(host, args, top, |args|, |args|); s + Zeros(Round16(|s|) - |s|) == Image(host, args, top)
  {
    hide ParamArea, DataArea;
  }

  lemma MoreCopies(args: seq<Arg>, n: nat)
    requires n < |args|
    ensures CopiesIn(args, n + 1) == (CopiesIn(args, n) || if args[n].OnStack? then args[n].cin else n >= NUM_ARGS_ON_REGISTER)
    ensures CopiesOut(args, n + 1) == (CopiesOut(args, n) || IsOut(args, n))
  {
  }

  /** The offset a copy-out closure computes from two VE addresses. */
  lemma OffsetBack(args: seq<Arg>, top: Word, i: nat)
    requires i < |args| && Off(args, |args|) < TWO31
    ensures W64(W64(top + Off(args, i)) - top) == Off(args, i)
  {
    DataOrdered(args, i, |args|);
  }

  lemma {:induction false} NoOuts(args: seq<Arg>, k: nat)
    requires k <= |args| && !CopiesOut(args, k)
    ensures Outs(args, k) == []
  {
    if k > 0 {
      assert !IsOut(args, k - 1);
      NoOuts(args, k - 1);
    }
  }

  // ---- what the kernel sees ----

  /** VE memory when the kernel of a call starts. */
  function AtKernel(ve: Mem, top: nat, image: seq<Byte>, cin: bool): Mem { if cin then Write(ve, top, image) else ve }

  lemma ReadInside(m: Mem, a: nat, d: seq<Byte>, i: nat, n: nat)
    requires a + |d| <= |m| && i + n <= |d|
    ensures Read(Write(m, a, d), a + i, n) == Read(d, i, n)
  {
  }

  /** What the kernel finds for argument `i`, with its registers and in its memory `m` with the stack top at `top`, in
  terms of the caller's argument: the scalar, in a slot zero-extended from its own width, or a pointer to the bytes of
  the buffer.  Slots and bytes are there if anything was copied in. */
  ghost predicate Finds(m: Mem, regs: seq<Word>, top: nat, cin: bool, args: seq<Arg>, host: Mem, i: nat)
    requires i < |args|
  {
    var slot := FromLE(Read(m, top + 176 + 8 * i, 8));
    && (i < 8 ==> i < |regs|)
    && match args[i]
       case Scalar(w, v) =>
         if i < 8 then (-TWO63 <= v < TWO63 ==> Signed(regs[i]) == v) && (0 <= v < TWO64 ==> regs[i] == v)
         else cin ==> slot == v % Pow256(w)
       case OnStack(buff, len, fromHost, _) =>
         cin ==> Read(m, if i < 8 then regs[i] else slot, len) == if fromHost then Read(host, buff, len) else Zeros(len)
  }

  lemma DataArrives(host: Mem, args: seq<Arg>, top: Word, ve: Mem, i: nat)
    requires ArgsOk(args) && i < |args| && args[i].OnStack?
    requires top + |Image(host, args, top)| <= |ve| && top + |Image(host, args, top)| < TWO64
    ensures W64(top + Off(args, i)) == top + Off(args, i)
    ensures Read(Write(ve, top, Image(host, args, top)), top + Off(args, i), args[i].len) ==
      if args[i].cin then Read(host, args[i].buff, args[i].len) else Zeros(args[i].len)
  {
    hide Image, Read, Write, Off, Zeros;
    StackArgPlacement(host, args, top, i);
    OffInside(host, args, top, i);
    Wrapped(top + Off(args, i), TWO64);
    ReadInside(ve, top, Image(host, args, top), Off(args, i), args[i].len);
  }

  lemma SlotArrives(host: Mem, args: seq<Arg>, top: Word, ve: Mem, i: nat)
    requires ArgsOk(args) && 8 <= i < |args| && top + |Image(host, args, top)| <= |ve|
    ensures FromLE(Read(Write(ve, top, Image(host, args, top)), top + 176 + 8 * i, 8)) ==
      match args[i]
      case Scalar(w, v) => v % Pow256(w)
      case OnStack(_, _, _, _) => W64(top + Off(args, i))
  {
    hide Image, FromLE, Read, Write, Pow256, Off;
    ImageSize(host, args, top);
    SlotHolds(host, args, top, i);
    ReadInside(ve, top, Image(host, args, top), PARAM_AREA_OFFSET + 8 * i, 8);
  }

  /** Every argument arrives: the kernel finds it in its register or slot, whatever VE memory held before. */
  lemma ArgumentArrives(host: Mem, args: seq<Arg>, top: Word, ve: Mem, cin: bool, i: nat)
    requires ArgsOk(args) && i < |args| && (cin ==> top + |Image(host, args, top)| <= |ve|)
    requires top + |Image(host, args, top)| < TWO64
    ensures Finds(AtKernel(ve, top, Image(host, args, top), cin), Regs(args, top), top, cin, args, host, i)
  {
    hide Image, FromLE, Read, Write, Pow256, Off, Zeros;
    if i < 8 { RegisterHolds(host, args, top, i); }
    if cin {
      if args[i].OnStack? { DataArrives(host, args, top, ve, i); }
      if i >= 8 { SlotArrives(host, args, top, ve, i); }
    }
  }

  /** The slot of argument `j` reaches the VE whatever was in its memory before if and only if something
  is copied in: OUT-only arguments from the ninth on do not by themselves get their pointers across. */
  lemma SlotDelivered(host: Mem, args: seq<Arg>, top: Word, j: nat, size: nat)
    requires ArgsOk(args) && NUM_ARGS_ON_REGISTER <= j < |args| && top + |Image(host, args, top)| <= size
    ensures (forall ve: Mem :: |ve| == size ==>
               Read(AtKernel(ve, top, Image(host, args, top), CopiesIn(args, |args|)), top + PARAM_AREA_OFFSET + 8 * j, 8)
               == Slot(args, j, top))
      <==> CopiesIn(args, |args|)
  {
    hide Image, Slot, CopiesIn, Read, Write;
    var image := Image(host, args, top);
    var at := top + PARAM_AREA_OFFSET + 8 * j;
    if CopiesIn(args, |args|) {
      SlotAt(host, args, top, j);
      forall ve: Mem | |ve| == size ensures Read(AtKernel(ve, top, image, true), at, 8) == Slot(args, j, top) {
        ReadInside(ve, top, image, PARAM_AREA_OFFSET + 8 * j, 8);
      }
    } else {
      var other: Byte := if Slot(args, j, top)[0] == 0 then 1 else 0;
      var ve: Mem := seq(size, _ => other);
      ImageSize(host, args, top);
      assert Read(ve, at, 8)[0] == other;
    }
  }

  lemma ImageSize(host: Mem, args: seq<Arg>, top: Word)
    requires ArgsOk(args)
    ensures |Image(host, args, top)| >= PARAM_AREA_OFFSET + 8 * |args|
  {
  }

  // ---- the page check of doCallAsync ----

  const RESERVED_STACK_SIZE: nat := 512 * 1024
  const PAGE: nat := 0x400_0000

  /** The stack top of a call on a context with VE stack pointer `sp`. */
  function StackTop(sp: Word, size: nat): Word { W64(W64(sp - RESERVED_STACK_SIZE) - size) }

  predicate SamePage(a: Word, b: Word) { a / PAGE == b / PAGE }

  /** The check that stack pointer and stack top agree outside the low 26 bits accepts a call exactly if
  the image and the 512 KiB reserve lie in the 64 MiB page of the stack pointer, below it. */
  lemma PageCheck(sp: Word, size: nat)
    requires size <= TWO31
    ensures SamePage(sp, StackTop(sp, size)) <==> size + RESERVED_STACK_SIZE <= sp % PAGE
    ensures SamePage(sp, StackTop(sp, size)) ==>
      StackTop(sp, size) == sp - RESERVED_STACK_SIZE - size && size <= PAGE - RESERVED_STACK_SIZE
  {
    assert sp == PAGE * (sp / PAGE) + sp % PAGE;
  }
}
