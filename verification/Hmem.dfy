/** Heterogeneous memory: VE addresses tagged with the process they belong to, the table that gives processes
their identifiers, and the routing of copies (veo_hmem_macros.h, ProcHandle.cpp, veo_api.cpp). */
module Hmem {
  import opened Memory
  import opened Bits

  // ---- the macros ----

  const IDENT_OFFSET_BITS: nat := 59
  const P59: nat := 0x800_0000_0000_0000
  const VEADDR_MBITS: nat := 0x8000_0000_0000_0000
  const PIDENT_MBITS: nat := 0x7800_0000_0000_0000
  const VIRT_MBITS: nat := 0x07ff_ffff_ffff_ffff
  const VEO_MAX_HMEM_PROCS: nat := 16

  function SetVeFlag(addr: nat): nat { Or(VEADDR_MBITS, addr) }

  predicate IsVe(addr: nat) { And(addr, VEADDR_MBITS) != 0 }

  function VirtAddrVe(addr: nat): nat { And(addr, VIRT_MBITS) }

  function SetProcIdent(addr: nat, ident: nat): nat { Or(addr, ident * P59 % TWO64) }

  function GetProcIdent(addr: nat): nat { Shr(And(addr, PIDENT_MBITS), IDENT_OFFSET_BITS) }

  /** A VE address of the process with identifier `ident`, as handed out by veo_alloc_hmem. */
  function Tag(addr: nat, ident: nat): nat { SetProcIdent(SetVeFlag(addr), ident) }

  lemma Consts()
    ensures Pow2(59) == P59 && Pow2(4) == 16
    ensures VEADDR_MBITS == Field(16, 0, 59) && PIDENT_MBITS == Field(15, 0, 59) && VIRT_MBITS == Pow2(59) - 1
  {
    assert Pow2(4) == 16 && Pow2(9) == 512;
    hide Pow2;
    TenBits(9);
    TenBits(19);
    TenBits(29);
    TenBits(39);
    TenBits(49);
  }

  lemma TenBits(k: nat)
    ensures Pow2(k + 10) == 1024 * Pow2(k)
  {
    FiveBits(k);
    FiveBits(k + 5);
  }

  lemma FiveBits(k: nat)
    ensures Pow2(k + 5) == 32 * Pow2(k)
  {
    assert Pow2(k + 1) == 2 * Pow2(k);
    assert Pow2(k + 2) == 4 * Pow2(k);
    assert Pow2(k + 3) == 8 * Pow2(k);
    assert Pow2(k + 4) == 16 * Pow2(k);
  }

  /** The top five bits of a word: flag and identifier. */
  lemma TopBits(h: nat)
    requires h < 32
    ensures And(h, 16) == (if h >= 16 then 16 else 0) && And(h, 15) == h % 16
  {
    var f := if h >= 16 then 1 else 0;
    assert h == Field(f, h % 16, 4) && 16 == Field(1, 0, 4) by { Consts(); }
    AndField(f, h % 16, 1, 4);
    AndMask(f, h % 16, 4);
    assert And(f, 1) == f;
    Consts();
  }

  /** What the bit operations of the macros compute. */
  lemma MacrosByFields(x: Word)
    ensures IsVe(x) <==> x >= VEADDR_MBITS
    ensures VirtAddrVe(x) == x % P59
    ensures GetProcIdent(x) == x / P59 % 16
  {
    Consts();
    var h, a := x / P59, x % P59;
    assert x == Field(h, a, 59);
    TopBits(h);
    hide And, Shr, Pow2;
    AndField(h, a, 16, 59);
    AndField(h, a, 15, 59);
    AndMask(h, a, 59);
    ShrField(h % 16, 0, 59);
  }

  lemma TagByFields(addr: Word, ident: nat)
    requires ident < 16
    ensures var h := addr / P59;
      Or(Or(16, h), ident) < 32 && Tag(addr, ident) == Or(Or(16, h), ident) * P59 + addr % P59
  {
    hide Or, Pow2;
    Consts();
    var h, a := addr / P59, addr % P59;
    assert addr == Field(h, a, 59) && ident * P59 == Field(ident, 0, 59);
    FlagStays(h, ident);
    OrZero(a);
    OrFields(16, h, 0, a, 59);
    OrFields(Or(16, h), ident, a, 0, 59);
  }

  /** Tagging is undone by the macros exactly for VE addresses below 2^59. */
  lemma TagRoundTrip(addr: Word, ident: nat)
    requires ident < 16
    ensures Tag(addr, ident) < TWO64 && IsVe(Tag(addr, ident))
    ensures VirtAddrVe(Tag(addr, ident)) == addr <==> addr < P59
    ensures addr < P59 ==> GetProcIdent(Tag(addr, ident)) == ident && Tag(addr, ident) == (16 + ident) * P59 + addr
  {
    hide Tag, IsVe, VirtAddrVe, GetProcIdent, And, Shr, Or;
    TagByFields(addr, ident);
    var h := addr / P59;
    FlagStays(h, ident);
    MacrosByFields(Tag(addr, ident));
  }

  lemma FlagStays(h: nat, ident: nat)
    requires h < 32 && ident < 16
    ensures 16 <= Or(Or(16, h), ident) < 32 && (h == 0 ==> Or(Or(16, h), ident) == 16 + ident)
  {
    hide Or, Pow2;
    Consts();
    var f, l := if h >= 16 then 1 else 0, h % 16;
    OrBit(f);
    OrBit(0);
    OrZero(l);
    OrZero(ident);
    OrFields(1, f, 0, l, 4);
    OrFields(1, 0, l, ident, 4);
  }

  lemma OrBit(f: nat)
    requires f < 2
    ensures Or(1, f) == 1
  {
    assert Or(0, 0) == 0;
  }

  /** An offset inside a buffer leaves tag and owner alone and moves the VE address. */
  lemma TagWithOffset(addr: nat, ident: nat, off: nat)
    requires ident < 16 && addr + off < P59
    ensures var p := Tag(addr, ident) + off;
      p < TWO64 && IsVe(p) && GetProcIdent(p) == ident && VirtAddrVe(p) == addr + off
  {
    hide Tag, IsVe, VirtAddrVe, GetProcIdent;
    TagRoundTrip(addr, ident);
    MacrosByFields(Tag(addr, ident) + off);
  }

  // ---- the table of processes ----

  /** Slots of __procs; `None` is the null pointer left by a process that has exited. */
  type Slots = seq<Option<nat>>

  datatype ProcOp = Create(p: nat) | Exit(p: nat)

  ghost predicate Distinct(t: Slots) {
    forall i, j :: 0 <= i < j < |t| && t[i].Some? ==> t[i] != t[j]
  }

  /** First slot holding `x`, or the number of slots. */
  function IndexOf(t: Slots, x: Option<nat>): (i: nat)
    ensures i <= |t| && (i < |t| ==> t[i] == x) && forall j :: 0 <= j < i ==> t[j] != x
  {
    if t == [] || t[0] == x then 0 else 1 + IndexOf(t[1..], x)
  }

  /** A new process takes the first free slot, or a new one at the end. */
  function Created(t: Slots, p: nat): Slots {
    var i := IndexOf(t, None);
    if i < |t| then t[i := Some(p)] else t + [Some(p)]
  }

  function Exited(t: Slots, p: nat): Slots {
    var i := IndexOf(t, Some(p));
    if i < |t| then t[i := None] else t
  }

  function After(t: Slots, ops: seq<ProcOp>): Slots {
    if ops == [] then t
    else
      var before := After(t, ops[..|ops| - 1]);
      match ops[|ops| - 1] case Create(p) => Created(before, p) case Exit(p) => Exited(before, p)
  }

  /** Handles are object addresses: a new one differs from those in use. */
  ghost predicate Proper(t: Slots, ops: seq<ProcOp>) {
    forall k :: 0 <= k < |ops| && ops[k].Create? ==> Some(ops[k].p) !in After(t, ops[..k])
  }

  lemma {:induction false} StaysDistinct(t: Slots, ops: seq<ProcOp>)
    requires Distinct(t) && Proper(t, ops)
    ensures Distinct(After(t, ops))
  {
    if ops != [] {
      var front := ops[..|ops| - 1];
      ProperFront(t, ops);
      StaysDistinct(t, front);
    }
  }

  lemma ProperFront(t: Slots, ops: seq<ProcOp>)
    requires ops != [] && Proper(t, ops)
    ensures Proper(t, ops[..|ops| - 1])
    ensures ops[|ops| - 1].Create? ==> Some(ops[|ops| - 1].p) !in After(t, ops[..|ops| - 1])
  {
    var front := ops[..|ops| - 1];
    forall k | 0 <= k < |front| && front[k].Create? ensures Some(front[k].p) !in After(t, front[..k]) {
      assert front[..k] == ops[..k] && front[k] == ops[k];
    }
  }

  /** A new process gets the lowest identifier that is free, and nobody else's changes. */
  lemma LowestFree(t: Slots, p: nat)
    requires Some(p) !in t
    ensures var i, u := IndexOf(Created(t, p), Some(p)), Created(t, p);
      && i < |u| && (i < |t| ==> t[i] == None) && (forall j :: 0 <= j < i ==> j < |t| && t[j].Some?)
      && |t| <= |u| && (forall j :: 0 <= j < |t| && j != i ==> u[j] == t[j])
  {
    var i := IndexOf(t, None);
    assert Created(t, p)[i] == Some(p);
  }

  /** A process keeps its slot, and nobody else is in it, for as long as it does not exit. */
  lemma {:induction false} IdentifierIsStable(t: Slots, ops: seq<ProcOp>, p: nat, i: nat)
    requires Distinct(t) && Proper(t, ops) && Exit(p) !in ops
    requires i < |t| && t[i] == Some(p)
    ensures i < |After(t, ops)| && After(t, ops)[i] == Some(p) && IndexOf(After(t, ops), Some(p)) == i
  {
    StaysDistinct(t, ops);
    if ops != [] {
      var front := ops[..|ops| - 1];
      ProperFront(t, ops);
      assert Exit(p) !in front;
      IdentifierIsStable(t, front, p, i);
      StaysDistinct(t, front);
    }
  }

  /** Slots are reused but never given back. */
  lemma {:induction false} SlotsNeverShrink(t: Slots, ops: seq<ProcOp>)
    ensures |After(t, ops)| >= |t|
  {
    if ops != [] { SlotsNeverShrink(t, ops[..|ops| - 1]); }
  }

  // ---- how many slots there are ----

  /** The processes alive after a sequence of operations. */
  function Alive(ops: seq<ProcOp>): set<nat> {
    if ops == [] then {}
    else
      var before := Alive(ops[..|ops| - 1]);
      match ops[|ops| - 1] case Create(p) => before + {p} case Exit(p) => before - {p}
  }

  /** The largest number of processes that were alive at once. */
  function Peak(ops: seq<ProcOp>): nat {
    if ops == [] then 0
    else
      var before := Peak(ops[..|ops| - 1]);
      if |Alive(ops)| > before then |Alive(ops)| else before
  }

  function Taken(t: Slots): set<nat> { set x | x in t && x.Some? :: x.value }

  lemma {:induction false} CountTaken(t: Slots)
    requires Distinct(t)
    ensures |Taken(t)| <= |t| && (|Taken(t)| == |t| <==> None !in t)
  {
    if t != [] {
      var front, last := t[..|t| - 1], t[|t| - 1];
      CountTaken(front);
      if last.Some? {
        assert last !in front;
        assert Taken(t) == Taken(front) + {last.value};
      } else {
        assert Taken(t) == Taken(front);
      }
    }
  }

  lemma {:induction false} AliveIsTaken(ops: seq<ProcOp>)
    requires Proper([], ops)
    ensures Alive(ops) == Taken(After([], ops))
  {
    if ops != [] {
      var front := ops[..|ops| - 1];
      ProperFront([], ops);
      AliveIsTaken(front);
      StaysDistinct([], front);
      OneChange(After([], front), ops[|ops| - 1]);
    }
  }

  lemma OneChange(t: Slots, op: ProcOp)
    requires Distinct(t)
    ensures op.Create? ==> Taken(Created(t, op.p)) == Taken(t) + {op.p}
    ensures op.Exit? ==> Taken(Exited(t, op.p)) == Taken(t) - {op.p}
  {
    var i := IndexOf(t, None);
    if op.Create? {
      var u := Created(t, op.p);
      assert u[i] == Some(op.p);
      forall x | x in Taken(t) ensures x in Taken(u) { var j :| 0 <= j < |t| && t[j] == Some(x); assert u[j] == Some(x); }
    } else {
      var u, k := Exited(t, op.p), IndexOf(t, Some(op.p));
      forall x | x in Taken(t) && x != op.p ensures x in Taken(u) {
        var j :| 0 <= j < |t| && t[j] == Some(x);
        assert u[j] == Some(x);
      }
      forall j | 0 <= j < |u| ensures u[j] != Some(op.p) { if j != k && k < |t| { assert u[j] == t[j]; } }
    }
  }

  /** The table has as many slots as processes were ever alive at once. */
  lemma {:induction false} SlotsArePeak(ops: seq<ProcOp>)
    requires Proper([], ops)
    ensures |After([], ops)| == Peak(ops)
  {
    if ops != [] {
      var front, t := ops[..|ops| - 1], After([], ops);
      ProperFront([], ops);
      SlotsArePeak(front);
      AliveIsTaken(ops);
      AliveIsTaken(front);
      StaysDistinct([], ops);
      StaysDistinct([], front);
      CountTaken(t);
      CountTaken(After([], front));
    }
  }

  /** Once more than 16 processes were alive at once the table is too long for veo_alloc_hmem, whoever exits later. */
  lemma HmemFailsForGood(ops: seq<ProcOp>, more: seq<ProcOp>)
    requires Proper([], ops + more)
    ensures |After([], ops + more)| > VEO_MAX_HMEM_PROCS <==> Peak(ops + more) > VEO_MAX_HMEM_PROCS
    ensures Peak(ops) > VEO_MAX_HMEM_PROCS ==> |After([], ops + more)| > VEO_MAX_HMEM_PROCS
  {
    SplitOps(ops, more);
    SlotsArePeak(ops);
    SlotsArePeak(ops + more);
    SlotsNeverShrink(After([], ops), more);
  }

  function Creations(n: nat): (r: seq<ProcOp>)
    ensures |r| == n && forall i :: 0 <= i < n ==> r[i] == Create(i)
  {
    seq(n, i requires 0 <= i < n => Create(i))
  }

  function Exits(n: nat): (r: seq<ProcOp>)
    ensures |r| == n && forall i :: 0 <= i < n ==> r[i] == Exit(i + 1)
  {
    seq(n, i requires 0 <= i < n => Exit(i + 1))
  }

  /** `n` slots of which those from 1 to `k` are free. */
  function Partly(n: nat, k: nat): (t: Slots)
    ensures |t| == n && forall i :: 0 <= i < n ==> t[i] == if 1 <= i <= k then None else Some(i)
  {
    seq(n, i requires 0 <= i < n => if 1 <= i <= k then None else Some(i))
  }

  lemma {:induction false} AfterCreations(n: nat)
    ensures After([], Creations(n)) == Partly(n, 0)
  {
    if n > 0 {
      AfterCreations(n - 1);
      assert Creations(n)[..n - 1] == Creations(n - 1);
    }
  }

  lemma {:induction false} AfterExits(n: nat, k: nat)
    requires k < n
    ensures After(Partly(n, 0), Exits(k)) == Partly(n, k)
  {
    if k > 0 {
      AfterExits(n, k - 1);
      assert Exits(k)[..k - 1] == Exits(k - 1);
      var t := Partly(n, k - 1);
      assert t[k] == Some(k);
      assert IndexOf(t, Some(k)) == k;
    }
  }

  /** 17 processes are created and all but one exit: the one that is left cannot allocate. */
  lemma SeventeenProcesses()
    ensures var ops := Creations(17) + Exits(16);
      Proper([], ops) && Alive(ops) == {0} && Some(0) in After([], ops) && |After([], ops)| > VEO_MAX_HMEM_PROCS
  {
    var ops := Creations(17) + Exits(16);
    forall k | 0 <= k < |ops| && ops[k].Create? ensures Some(ops[k].p) !in After([], ops[..k]) {
      assert ops[k] == Create(k) && ops[..k] == Creations(k);
      AfterCreations(k);
    }
    AfterCreations(17);
    AfterExits(17, 16);
    AfterConcat([], Creations(17), Exits(16));
    AliveIsTaken(ops);
    assert Partly(17, 16)[0] == Some(0);
  }

  class ProcTable {
    var procs: Slots

    constructor ()
      ensures procs == []
    {
      procs := [];
    }

    /** std::find over the slots. */
    method Search(x: Option<nat>) returns (i: nat)
      ensures i == IndexOf(procs, x)
    {
      i := 0;
      while i < |procs| && procs[i] != x
        invariant i <= |procs| && IndexOf(procs, x) == i + IndexOf(procs[i..], x)
      {
        assert procs[i..][1..] == procs[i + 1..];
        i := i + 1;
      }
    }

    /** The end of the ProcHandle constructor. */
    method Create(p: nat)
      modifies this
      ensures procs == Created(old(procs), p)
    {
      var i := Search(None);
      if i == |procs| { procs := procs + [Some(p)]; } else { procs := procs[i := Some(p)]; }
    }

    method GetProcIdentifier(p: nat) returns (ident: int)
      ensures ident == if Some(p) in procs then IndexOf(procs, Some(p)) else -1
    {
      var i := Search(Some(p));
      ident := if i == |procs| then -1 else i;
    }

    /** The end of exitProc. */
    method Exit(p: nat)
      modifies this
      ensures procs == Exited(old(procs), p)
    {
      var i := Search(Some(p));
      if i < |procs| { procs := procs[i := None]; }
    }

    /** getProcHandle: at() throws for an index out of range; a free slot holds the null pointer. */
    method GetProcHandle(ident: nat) returns (p: Lookup)
      ensures p == LookUp(procs, ident)
    {
      if ident >= |procs| { return OutOfRange; }
      p := if procs[ident] == None then NullProc else Found(procs[ident].value);
    }

    /** veo_alloc_hmem, with the address veo_alloc_mem got from the VE (`None` if that failed). */
    method AllocHmem(p: nat, veAddr: Option<Word>) returns (addr: Option<nat>)
      ensures addr.Some? <==> |procs| <= VEO_MAX_HMEM_PROCS && veAddr.Some? && Some(p) in procs
      ensures addr.Some? ==> addr.value == Tag(veAddr.value, IndexOf(procs, Some(p)))
    {
      if |procs| > VEO_MAX_HMEM_PROCS || veAddr == None { return None; }
      var ident := GetProcIdentifier(p);
      if ident < 0 { return None; }
      addr := Some(Tag(veAddr.value, ident));
    }

    /** The routing of veo_hmemcpy. */
    method HmemCpy(dst: nat, src: nat) returns (r: Route)
      ensures r == RouteOf(procs, dst, src)
    {
      if IsVe(dst) && !IsVe(src) {
        var p := GetProcHandle(GetProcIdent(dst));
        r := match p case OutOfRange => Fails case NullProc => Dangling case Found(q) => ToVe(q, VirtAddrVe(dst), src);
      } else if !IsVe(dst) && IsVe(src) {
        var p := GetProcHandle(GetProcIdent(src));
        r := match p case OutOfRange => Fails case NullProc => Dangling case Found(q) => FromVe(q, dst, VirtAddrVe(src));
      } else if !IsVe(dst) && !IsVe(src) {
        r := OnHost(dst, src);
      } else {
        var d := GetProcHandle(GetProcIdent(dst));
        if d.OutOfRange? { return Fails; }
        var s := GetProcHandle(GetProcIdent(src));
        if s.OutOfRange? || d != s { return Fails; }
        r := if d.NullProc? then Dangling else WithinVe(d.p, VirtAddrVe(dst), VirtAddrVe(src));
      }
    }
  }

  datatype Lookup = OutOfRange | NullProc | Found(p: nat)

  function LookUp(t: Slots, ident: nat): Lookup {
    if ident >= |t| then OutOfRange else match t[ident] case None => NullProc case Some(p) => Found(p)
  }

  /** Where a copy goes.  `Dangling` is the use of the handle of a process that has exited. */
  datatype Route = ToVe(p: nat, va: nat, src: nat) | FromVe(p: nat, dst: nat, va: nat) | OnHost(dst: nat, src: nat)
    | WithinVe(p: nat, to: nat, from: nat) | Fails | Dangling

  function RouteOf(t: Slots, dst: nat, src: nat): Route {
    var d, s := LookUp(t, GetProcIdent(dst)), LookUp(t, GetProcIdent(src));
    if IsVe(dst) && IsVe(src) then
      if d.OutOfRange? || d != s then Fails
      else if d.NullProc? then Dangling
      else WithinVe(d.p, VirtAddrVe(dst), VirtAddrVe(src))
    else if IsVe(dst) then
      match d case OutOfRange => Fails case NullProc => Dangling case Found(q) => ToVe(q, VirtAddrVe(dst), src)
    else if IsVe(src) then
      match s case OutOfRange => Fails case NullProc => Dangling case Found(q) => FromVe(q, dst, VirtAddrVe(src))
    else OnHost(dst, src)
  }

  /** An address inside a buffer that was allocated for `p` when the table was `t`. */
  ghost predicate BufferAddr(t: Slots, p: nat, va: nat, off: nat, addr: nat) {
    && |t| <= VEO_MAX_HMEM_PROCS && Some(p) in t && va + off < P59
    && addr == Tag(va, IndexOf(t, Some(p))) + off
  }

  /** However many processes come and go afterwards: an address into a buffer of a process that is still there
  leads to that process and to the VE address it was made from. */
  lemma HmemDecodes(before: seq<ProcOp>, after: seq<ProcOp>, p: nat, va: nat, off: nat, addr: nat)
    requires Proper([], before + after) && Exit(p) !in after && BufferAddr(After([], before), p, va, off, addr)
    ensures var t := After([], before + after);
      addr < TWO64 && IsVe(addr) && LookUp(t, GetProcIdent(addr)) == Found(p) && VirtAddrVe(addr) == va + off
  {
    hide IsVe, GetProcIdent, VirtAddrVe, Tag;
    var t := After([], before);
    var i := IndexOf(t, Some(p));
    SplitOps(before, after);
    StaysDistinct([], before);
    IdentifierIsStable(t, after, p, i);
    TagWithOffset(va, i, off);
  }

  lemma {:induction false} AfterConcat(t: Slots, a: seq<ProcOp>, b: seq<ProcOp>)
    ensures After(t, a + b) == After(After(t, a), b)
  {
    if b == [] {
      assert a + b == a;
    } else {
      assert (a + b)[..|a + b| - 1] == a + b[..|b| - 1];
      AfterConcat(t, a, b[..|b| - 1]);
    }
  }

  lemma SplitOps(a: seq<ProcOp>, b: seq<ProcOp>)
    requires Proper([], a + b)
    ensures Proper([], a) && Proper(After([], a), b) && After([], a + b) == After(After([], a), b)
  {
    AfterConcat([], a, b);
    forall k | 0 <= k < |a| && a[k].Create? ensures Some(a[k].p) !in After([], a[..k]) {
      assert (a + b)[..k] == a[..k] && (a + b)[k] == a[k];
    }
    forall k | 0 <= k < |b| && b[k].Create? ensures Some(b[k].p) !in After(After([], a), b[..k]) {
      assert (a + b)[..|a| + k] == a + b[..k] && (a + b)[|a| + k] == b[k];
      AfterConcat([], a, b[..k]);
    }
  }

  /** The routing of a copy between a buffer of `p` and plain host memory, both ways. */
  lemma HmemCpyHost(before: seq<ProcOp>, after: seq<ProcOp>, p: nat, va: nat, off: nat, addr: nat, host: Word)
    requires Proper([], before + after) && Exit(p) !in after && BufferAddr(After([], before), p, va, off, addr)
    requires host < VEADDR_MBITS
    ensures RouteOf(After([], before + after), addr, host) == ToVe(p, va + off, host)
    ensures RouteOf(After([], before + after), host, addr) == FromVe(p, host, va + off)
  {
    hide IsVe, GetProcIdent, VirtAddrVe, Tag, BufferAddr;
    HmemDecodes(before, after, p, va, off, addr);
    MacrosByFields(host);
  }

  /** A copy between two VE buffers, allocated at different times: done inside the process if it is the same one,
  refused if not. */
  lemma HmemCpyVe(b1: seq<ProcOp>, a1: seq<ProcOp>, p: nat, va1: nat, off1: nat, dst: nat,
                  b2: seq<ProcOp>, a2: seq<ProcOp>, q: nat, va2: nat, off2: nat, src: nat)
    requires b1 + a1 == b2 + a2 && Proper([], b1 + a1) && Exit(p) !in a1 && Exit(q) !in a2
    requires BufferAddr(After([], b1), p, va1, off1, dst) && BufferAddr(After([], b2), q, va2, off2, src)
    ensures RouteOf(After([], b1 + a1), dst, src) == if p == q then WithinVe(p, va1 + off1, va2 + off2) else Fails
  {
    hide IsVe, GetProcIdent, VirtAddrVe, Tag, BufferAddr;
    HmemDecodes(b1, a1, p, va1, off1, dst);
    HmemDecodes(b2, a2, q, va2, off2, src);
  }

  /** The slot an address names, by its bits 59 to 62: none, a free one, or one with a process. */
  function Named(t: Slots, addr: nat): Option<Option<nat>> {
    var i := addr / P59 % 16;
    if i < |t| then Some(t[i]) else None
  }

  /** Where any copy goes, by the values of the addresses.  Addresses below 2^63 are host memory; the others name a
  slot and, below 2^59, an address on the VE. */
  lemma RouteByAddress(t: Slots, dst: Word, src: Word)
    ensures dst < VEADDR_MBITS && src < VEADDR_MBITS ==> RouteOf(t, dst, src) == OnHost(dst, src)
    ensures dst >= VEADDR_MBITS && src < VEADDR_MBITS ==>
      RouteOf(t, dst, src) ==
        match Named(t, dst) case None => Fails case Some(None) => Dangling case Some(Some(p)) => ToVe(p, dst % P59, src)
    ensures dst < VEADDR_MBITS && src >= VEADDR_MBITS ==>
      RouteOf(t, dst, src) ==
        match Named(t, src) case None => Fails case Some(None) => Dangling case Some(Some(p)) => FromVe(p, dst, src % P59)
    ensures dst >= VEADDR_MBITS && src >= VEADDR_MBITS ==>
      RouteOf(t, dst, src) ==
        if Named(t, dst) == None || Named(t, dst) != Named(t, src) then Fails
        else match Named(t, dst).value case None => Dangling case Some(p) => WithinVe(p, dst % P59, src % P59)
  {
    hide IsVe, GetProcIdent, VirtAddrVe;
    MacrosByFields(dst);
    MacrosByFields(src);
  }

  /** A process that exited is in no slot, unless its handle is used again. */
  lemma {:induction false} ExitIsFinal(t: Slots, ops: seq<ProcOp>, p: nat)
    requires Distinct(t) && Proper(t, ops) && Create(p) !in ops && Exit(p) in ops
    ensures Some(p) !in After(t, ops)
  {
    var n := |ops| - 1;
    var front, last := ops[..n], ops[n];
    ProperFront(t, ops);
    StaysDistinct(t, front);
    OneChange(After(t, front), last);
    if last != Exit(p) {
      assert ops == front + [last];
      ExitIsFinal(t, front, p);
    }
    assert p !in Taken(After(t, ops));
  }

  /** An address into a buffer of `p` leads to `p` for exactly as long as `p` has not exited. */
  lemma AddressLeadsToOwner(before: seq<ProcOp>, after: seq<ProcOp>, p: nat, va: nat, off: nat, addr: nat)
    requires Proper([], before + after) && Create(p) !in after && BufferAddr(After([], before), p, va, off, addr)
    ensures LookUp(After([], before + after), GetProcIdent(addr)) == Found(p) <==> Exit(p) !in after
  {
    hide IsVe, GetProcIdent, VirtAddrVe, Tag, BufferAddr;
    if Exit(p) in after {
      SplitOps(before, after);
      StaysDistinct([], before);
      ExitIsFinal(After([], before), after, p);
    } else {
      HmemDecodes(before, after, p, va, off, addr);
    }
  }

  /** If the owner does exit, the next process created takes over its addresses. */
  lemma StaleAddress(va: nat, p: nat, q: nat)
    requires va < P59 && p != q
    ensures var t := After([], [Create(p)]);
      && Some(p) in t
      && LookUp(After([], [Create(p), Exit(p), Create(q)]), GetProcIdent(Tag(va, IndexOf(t, Some(p))))) == Found(q)
  {
    hide GetProcIdent, Tag;
    assert [Create(p)][..0] == [] && [Create(p), Exit(p)][..1] == [Create(p)];
    assert [Create(p), Exit(p), Create(q)][..2] == [Create(p), Exit(p)];
    assert After([], [Create(p)]) == [Some(p)];
    assert After([], [Create(p), Exit(p)]) == [None];
    TagRoundTrip(va, 0);
  }
}
