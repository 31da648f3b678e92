/** Commands, the messages they become on the wire, what the VE does with a message, and what the
reply does to host memory (AsyncTransfer.cpp, Context.cpp, veo_urpc_vh.cpp, veo_urpc.c, veo_urpc_ve.c). */
module Protocol {
  import opened Memory

  /** One copy-out closure: `len` bytes at offset `off` of the stack image go to host address `buff`. */
  datatype CopyOut = CopyOut(buff: nat, len: nat, off: nat)

  /** What a command does.  `Vh`, `Nop` and `Join` are VH commands, the others go to the VE.
  A VH function works on the block of host memory its argument leads to, possibly all of it.
  `prev` and the parts of a join are request ids; `None` stands for VEO_REQUEST_ID_INVALID. */
  datatype Op =
    | Vh(func: nat, addr: nat, len: nat)
    | Nop
    | Join(write: Option<nat>, call: Option<nat>, read: Option<nat>,
           stack: nat, size: nat, copyout: bool, outs: seq<CopyOut>)
    | Send(dst: nat, src: nat, size: nat, prev: Option<nat>)
    | Recv(dst: nat, src: nat, size: nat, prev: Option<nat>)
    | Call(fn: nat, regs: seq<Word>, stackTop: nat, stackSize: nat, copyin: bool, copyout: bool,
           stack: nat, keep: bool, outs: seq<CopyOut>)
    | Generic(cmd: nat, nowait: bool)
  {
    predicate IsVH() { Vh? || Nop? || Join? }

    predicate Nowait() { Generic? && nowait }

    /** Ids of the requests whose results this command picks up. */
    function Refs(): set<nat> {
      match this
      case Send(_, _, _, p) => OptSet(p)
      case Recv(_, _, _, p) => OptSet(p)
      case Join(w, c, r, _, _, _, _) => OptSet(w) + OptSet(c) + OptSet(r)
      case _ => {}
    }
  }

  function OptSet(o: Option<nat>): set<nat> {
    match o case None => {} case Some(x) => {x}
  }

  datatype Command = Command(id: nat, op: Op)

  datatype Status = Ok | Exception | Error | Unfinished

  datatype Reply = Ack | Value(v: Word) | Stack(v: Word, bytes: seq<Byte>)
    | Data(dst: nat, bytes: seq<Byte>) | Exc(code: Word)

  datatype Msg =
    | MSend(dst: nat, data: seq<Byte>)
    | MRecv(src: nat, dst: nat, size: nat)
    | MCall(fn: nat, regs: seq<Word>)
    | MCallStk(fn: nat, regs: seq<Word>, top: nat, cin: bool, cout: bool, buf: seq<Byte>)
    | MGeneric(cmd: nat)

  /** The parts of the system that stay arbitrary: kernels, VH functions, the other VE handlers (and
  which of those answer with an ACK instead of a value), and the capacity of one URPC message. */
  datatype Env = Env(
    maxCmd: nat,
    kernel: (nat, seq<Word>, nat, Mem) -> (Mem, Word),
    vh: (nat, seq<Byte>) -> (seq<Byte>, Word),
    generic: (nat, Mem) -> (Mem, Word),
    acks: nat -> bool)

  /** Memories keep their size. */
  function Fit(was: Mem, now: (Mem, Word)): (r: (Mem, Word))
    ensures |r.0| == |was|
  {
    if |now.0| == |was| then now else (was, now.1)
  }

  function Kernel(env: Env, fn: nat, regs: seq<Word>, top: nat, ve: Mem): (r: (Mem, Word))
    ensures |r.0| == |ve|
  {
    Fit(ve, env.kernel(fn, regs, top, ve))
  }

  function VhRun(env: Env, f: nat, block: seq<Byte>): (r: (seq<Byte>, Word))
    ensures |r.0| == |block|
  {
    Fit(block, env.vh(f, block))
  }

  const SEND_CALL_CMD_SIZE_WITHOUT_DATA: nat := 40
  const URPC_CMD_SENDBUFF: nat := 12
  const URPC_CMD_RECVBUFF: nat := 13

  /** Stack bytes that fit beside the registers in one call message. */
  function HeadLimit(env: Env, nregs: nat): nat {
    var used := SEND_CALL_CMD_SIZE_WITHOUT_DATA + 8 * nregs;
    if env.maxCmd < used then 0 else env.maxCmd - used
  }

  /** send_call_nolock clamps the image to the limit. */
  function HeadSize(env: Env, nregs: nat, stackSize: nat): nat {
    if stackSize > HeadLimit(env, nregs) then HeadLimit(env, nregs) else stackSize
  }

  /** The message the submit function of a VE command sends, read off host memory at that moment.
  The buffer of an OUT-only call is not transferred; the VE handler only reserves its room. */
  function MsgOf(env: Env, op: Op, host: Mem): Msg
    requires !op.IsVH()
  {
    match op
    case Send(dst, src, size, _) => MSend(dst, Read(host, src, size))
    case Recv(dst, src, size, _) => MRecv(src, dst, size)
    case Generic(cmd, _) => MGeneric(cmd)
    case Call(fn, regs, top, size, cin, cout, stack, _, _) =>
      if !(cin || cout) then MCall(fn, regs)
      else
        var h := HeadSize(env, |regs|, size);
        MCallStk(fn, regs, top, cin, cout, if cin then Read(host, stack, h) else Zeros(h))
  }

  /** The VE copies the stack back in whole words; a tail shorter than a word keeps the message's bytes. */
  function CopyBack(buf: seq<Byte>, stack: seq<Byte>): (r: seq<Byte>)
    requires |buf| == |stack|
    ensures |r| == |buf|
    ensures forall i :: 0 <= i < |buf| ==> r[i] == if i < |buf| - |buf| % 8 then stack[i] else buf[i]
    ensures |buf| % 8 == 0 ==> r == stack
  {
    var w := |buf| / 8 * 8;
    stack[..w] + buf[w..]
  }

  /** The VE handler of a message: its effect on VE memory and its reply. */
  function Handle(env: Env, ve: Mem, msg: Msg): (r: (Mem, Reply))
    ensures |r.0| == |ve|
  {
    match msg
    case MSend(dst, data) => (Write(ve, dst, data), Ack)
    case MRecv(src, dst, size) => (ve, Data(dst, Read(ve, src, size)))
    case MCall(fn, regs) => var k := Kernel(env, fn, regs, 0, ve); (k.0, Value(k.1))
    case MCallStk(fn, regs, top, cin, cout, buf) =>
      var ve1 := if cin then Write(ve, top, buf) else ve;
      var k := Kernel(env, fn, regs, top, ve1);
      (k.0, if cout then Stack(k.1, CopyBack(buf, Read(k.0, top, |buf|))) else Value(k.1))
    case MGeneric(cmd) =>
      var g := Fit(ve, env.generic(cmd, ve));
      (g.0, if env.acks(cmd) then Ack else Value(g.1))
  }

  /** Run the copy-out closures on a stack image. */
  function ApplyOuts(host: Mem, image: seq<Byte>, outs: seq<CopyOut>): (h: Mem)
    ensures |h| == |host|
  {
    if outs == [] then host
    else
      var last := outs[|outs| - 1];
      Write(ApplyOuts(host, image, outs[..|outs| - 1]), last.buff, Read(image, last.off, last.len))
  }

  /** What the result function of a VE command does to host memory. */
  function HostEffect(op: Op, host: Mem, reply: Reply): (h: Mem)
    ensures |h| == |host|
  {
    match op
    case Recv(dst, _, size, _) =>
      if reply.Data? && reply.dst == dst && |reply.bytes| == size then Write(host, dst, reply.bytes) else host
    case Call(_, _, _, _, _, _, stack, keep, outs) =>
      if !reply.Stack? then host
      else if keep then Write(host, stack, reply.bytes)
      else ApplyOuts(host, reply.bytes, outs)
    case _ => host
  }

  /** What a VH command does to host memory; a join copies out only if its read part was fine. */
  function VhEffect(env: Env, op: Op, host: Mem, readOk: bool): (h: Mem)
    ensures |h| == |host|
  {
    match op
    case Vh(f, a, n) => Write(host, a, VhRun(env, f, Read(host, a, n)).0)
    case Join(_, _, _, stack, size, copyout, outs) =>
      if readOk && copyout then ApplyOuts(host, Read(host, stack, size), outs) else host
    case _ => host
  }

  datatype World = World(ve: Mem, host: Mem)

  /** One command executed from start to end with nothing else going on. */
  function SeqStep(env: Env, w: World, op: Op): World {
    if op.IsVH() then w.(host := VhEffect(env, op, w.host, true))
    else
      var h := Handle(env, w.ve, MsgOf(env, op, w.host));
      World(h.0, HostEffect(op, w.host, h.1))
  }

  /** Commands executed one after the other. */
  function ExecSeq(env: Env, w: World, ops: seq<Op>): World {
    if ops == [] then w
    else SeqStep(env, ExecSeq(env, w, ops[..|ops| - 1]), ops[|ops| - 1])
  }

  lemma {:induction false} ExecSeqConcat(env: Env, w: World, a: seq<Op>, b: seq<Op>)
    ensures ExecSeq(env, w, a + b) == ExecSeq(env, ExecSeq(env, w, a), b)
  {
    if b == [] {
      assert a + b == a;
    } else {
      var b' := b[..|b| - 1];
      assert (a + b)[..|a + b| - 1] == a + b';
      ExecSeqConcat(env, w, a, b');
    }
  }

  lemma ExecNone(env: Env, w: World)
    ensures ExecSeq(env, w, []) == w
  {
  }

  lemma ExecSnoc(env: Env, w: World, ops: seq<Op>, op: Op)
    ensures ExecSeq(env, w, ops + [op]) == SeqStep(env, ExecSeq(env, w, ops), op)
  {
    hide SeqStep;
    assert (ops + [op])[..|ops|] == ops;
  }

  lemma {:induction false} ExecSeqSizes(env: Env, w: World, ops: seq<Op>)
    ensures |ExecSeq(env, w, ops).ve| == |w.ve| && |ExecSeq(env, w, ops).host| == |w.host|
  {
    if ops != [] { ExecSeqSizes(env, w, ops[..|ops| - 1]); }
  }

  // ---- footprints ----

  predicate OutsOk(outs: seq<CopyOut>, size: nat, hostLen: nat) {
    forall i :: 0 <= i < |outs| ==> outs[i].off + outs[i].len <= size && outs[i].buff + outs[i].len <= hostLen
  }

  /** Every buffer a request names lies inside the memory it belongs to. */
  predicate OpOk(env: Env, op: Op, veLen: nat, hostLen: nat) {
    match op
    case Send(dst, src, size, _) => dst + size <= veLen && src + size <= hostLen
    case Recv(dst, src, size, _) => src + size <= veLen && dst + size <= hostLen
    case Call(_, regs, top, size, cin, cout, stack, keep, outs) =>
      && |regs| <= 8
      && (cin || cout ==> top + size <= veLen && stack + size <= hostLen)
      && (!keep ==> OutsOk(outs, size, hostLen))
    case Join(_, _, _, stack, size, _, outs) => stack + size <= hostLen && OutsOk(outs, size, hostLen)
    case Vh(_, a, n) => a + n <= hostLen
    case _ => true
  }

  /** Host memory a command reads: a VE command when it is submitted, a VH command when it runs. */
  function Reads(env: Env, op: Op): seq<Region> {
    match op
    case Vh(_, a, n) => [Region(a, n)]
    case Join(_, _, _, stack, size, true, _) => [Region(stack, size)]
    case Send(_, src, size, _) => [Region(src, size)]
    case Call(_, regs, _, size, true, _, stack, _, _) => [Region(stack, HeadSize(env, |regs|, size))]
    case _ => []
  }

  /** Host memory a command writes: a VE command when its reply arrives, a VH command when it runs. */
  function Writes(env: Env, op: Op): seq<Region> {
    match op
    case Vh(_, a, n) => [Region(a, n)]
    case Join(_, _, _, _, _, true, outs) => OutRegions(outs)
    case Recv(dst, _, size, _) => [Region(dst, size)]
    case Call(_, regs, _, size, _, true, stack, keep, outs) =>
      if keep then [Region(stack, HeadSize(env, |regs|, size))] else OutRegions(outs)
    case _ => []
  }

  function OutRegions(outs: seq<CopyOut>): (rs: seq<Region>)
    ensures |rs| == |outs|
  {
    seq(|outs|, i requires 0 <= i < |outs| => Region(outs[i].buff, outs[i].len))
  }

  /** The submitted message depends on nothing but the bytes it reads. */
  lemma MsgFrame(env: Env, op: Op, h1: Mem, h2: Mem)
    requires !op.IsVH() && |h1| == |h2|
    requires forall x :: 0 <= x < |h1| && !Outside(x, Reads(env, op)) ==> h1[x] == h2[x]
    ensures MsgOf(env, op, h1) == MsgOf(env, op, h2)
  {
    match op
    case Send(_, src, size, _) =>
      forall x | 0 <= x < |h1| && src <= x < src + size ensures h1[x] == h2[x] {
        assert Reads(env, op)[0].Has(x);
      }
      assert Read(h1, src, size) == Read(h2, src, size);
    case Call(_, regs, _, size, cin, _, stack, _, _) =>
      if cin {
        var h := HeadSize(env, |regs|, size);
        forall x | 0 <= x < |h1| && stack <= x < stack + h ensures h1[x] == h2[x] {
          assert Reads(env, op)[0].Has(x);
        }
        assert Read(h1, stack, h) == Read(h2, stack, h);
      }
    case _ =>
  }

  lemma {:induction false} ApplyOutsFrame(host: Mem, image: seq<Byte>, outs: seq<CopyOut>, x: nat)
    requires x < |host| && Outside(x, OutRegions(outs))
    ensures ApplyOuts(host, image, outs)[x] == host[x]
  {
    if outs != [] {
      var front := outs[..|outs| - 1];
      forall i | 0 <= i < |front| ensures !OutRegions(front)[i].Has(x) {
        assert OutRegions(outs)[i] == OutRegions(front)[i];
      }
      ApplyOutsFrame(host, image, front, x);
      assert !OutRegions(outs)[|outs| - 1].Has(x);
    }
  }

  /** A reply of the right shape for a command. */
  predicate GoodReply(env: Env, op: Op, reply: Reply) {
    match op
    case Send(_, _, _, _) => reply.Ack?
    case Recv(dst, _, size, _) => reply.Data? && reply.dst == dst && |reply.bytes| == size
    case Call(_, regs, _, size, _, cout, _, _, _) =>
      if cout then reply.Stack? && |reply.bytes| == HeadSize(env, |regs|, size) else reply.Value?
    case Generic(_, _) => reply.Value? || reply.Ack?
    case _ => false
  }

  lemma HandleReplies(env: Env, op: Op, ve: Mem, host: Mem)
    requires !op.IsVH()
    ensures GoodReply(env, op, Handle(env, ve, MsgOf(env, op, host)).1)
  {
  }

  /** A reply changes host memory only where its command writes. */
  lemma EffectFrame(env: Env, op: Op, host: Mem, reply: Reply, x: nat)
    requires !op.IsVH() && GoodReply(env, op, reply) && x < |host| && Outside(x, Writes(env, op))
    ensures HostEffect(op, host, reply)[x] == host[x]
  {
    match op
    case Recv(dst, _, size, _) => assert !Writes(env, op)[0].Has(x);
    case Call(_, regs, _, size, _, cout, stack, keep, outs) =>
      if cout {
        if keep { assert !Writes(env, op)[0].Has(x); }
        else { ApplyOutsFrame(host, reply.bytes, outs, x); }
      }
    case _ =>
  }

  /** What a reply leaves at an address depends on nothing else in host memory. */
  lemma EffectAgree(op: Op, h1: Mem, h2: Mem, reply: Reply, x: nat)
    requires |h1| == |h2| && x < |h1| && h1[x] == h2[x]
    ensures HostEffect(op, h1, reply)[x] == HostEffect(op, h2, reply)[x]
  {
    if op.Call? && reply.Stack? && !op.keep { ApplyOutsAgree(h1, h2, reply.bytes, op.outs, x); }
  }

  lemma {:induction false} ApplyOutsAgree(h1: Mem, h2: Mem, image: seq<Byte>, outs: seq<CopyOut>, x: nat)
    requires |h1| == |h2| && x < |h1| && h1[x] == h2[x]
    ensures ApplyOuts(h1, image, outs)[x] == ApplyOuts(h2, image, outs)[x]
  {
    if outs != [] { ApplyOutsAgree(h1, h2, image, outs[..|outs| - 1], x); }
  }

  /** A VH command changes host memory only where it writes. */
  lemma VhFrame(env: Env, op: Op, host: Mem, x: nat)
    requires op.IsVH() && x < |host| && Outside(x, Writes(env, op))
    ensures VhEffect(env, op, host, true)[x] == host[x]
  {
    match op
    case Vh(_, a, n) => assert !Writes(env, op)[0].Has(x);
    case Join(_, _, _, stack, size, copyout, outs) =>
      if copyout { ApplyOutsFrame(host, Read(host, stack, size), outs, x); }
    case _ =>
  }

  /** What a VH command leaves at an address depends on that byte and on what it reads. */
  lemma VhAgree(env: Env, op: Op, h1: Mem, h2: Mem, x: nat)
    requires op.IsVH() && |h1| == |h2| && x < |h1| && h1[x] == h2[x]
    requires forall y :: 0 <= y < |h1| && !Outside(y, Reads(env, op)) ==> h1[y] == h2[y]
    ensures VhEffect(env, op, h1, true)[x] == VhEffect(env, op, h2, true)[x]
  {
    match op
    case Vh(f, a, n) =>
      SameBytes(h1, h2, Reads(env, op), a, n);
    case Join(_, _, _, stack, size, copyout, outs) =>
      if copyout {
        SameBytes(h1, h2, Reads(env, op), stack, size);
        ApplyOutsAgree(h1, h2, Read(h1, stack, size), outs, x);
      }
    case _ =>
  }

  lemma SameBytes(h1: Mem, h2: Mem, rs: seq<Region>, a: nat, n: nat)
    requires |h1| == |h2| && |rs| > 0 && rs[0] == Region(a, n)
    requires forall y :: 0 <= y < |h1| && !Outside(y, rs) ==> h1[y] == h2[y]
    ensures Read(h1, a, n) == Read(h2, a, n)
  {
    forall y | 0 <= y < |h1| && a <= y < a + n ensures h1[y] == h2[y] { assert rs[0].Has(y); }
  }
}
