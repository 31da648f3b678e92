/** A call whose stack image does not fit into one message is split: an extra write, the call with the
head of the image, an extra read, and a join on the host (Context.cpp, doCallAsync).  The split call
does what a single message of unlimited size would do. */
module LargeCall {
  import opened Memory
  import opened Protocol
  import opened Transfer
  import opened Engine
  import opened EngineInv
  import opened EngineChains
  import opened Sequential
  import opened Marshalling

  /** A prepared call: registers, stack area on the VE, image in host memory, copy-outs. */
  datatype CallSpec = CallSpec(fn: nat, regs: seq<Word>, top: nat, size: nat, cin: bool, cout: bool,
                               stack: nat, outs: seq<CopyOut>)

  predicate SpecOk(c: CallSpec, w: World) {
    && c.size % 8 == 0 && c.stack + c.size <= |w.host| && OutsOk(c.outs, c.size, |w.host|)
    && (c.cin || c.cout ==> c.top + c.size <= |w.ve|)
  }

  /** The stack buffer is private: no copy-out goes into it. */
  predicate Private(c: CallSpec) {
    forall i :: 0 <= i < |c.outs| ==> Apart(Region(c.outs[i].buff, c.outs[i].len), Region(c.stack, c.size))
  }

  function SimpleOp(c: CallSpec): Op {
    Call(c.fn, c.regs, c.top, c.size, c.cin, c.cout, c.stack, false, c.outs)
  }

  function HeadOp(c: CallSpec): Op {
    Call(c.fn, c.regs, c.top, c.size, c.cin, c.cout, c.stack, true, [])
  }

  /** The kernel started with an image; a call that transfers no stack stays on the handler's own. */
  function Started(env: Env, ve: Mem, c: CallSpec, image: seq<Byte>): (r: (Mem, Word))
    ensures |r.0| == |ve|
  {
    Kernel(env, c.fn, c.regs, if c.cin || c.cout then c.top else 0, AtKernel(ve, c.top, image, c.cin))
  }

  /** What a call does: the kernel runs on the VE memory with the image in place, and the copy-outs bring
  back what it left on the stack. */
  function KernelRun(env: Env, w: World, c: CallSpec): (r: (Mem, Word))
    ensures |r.0| == |w.ve|
  {
    Started(env, w.ve, c, Read(w.host, c.stack, c.size))
  }

  function CallEffect(env: Env, w: World, c: CallSpec): World {
    var k := KernelRun(env, w, c);
    World(k.0, if c.cout then ApplyOuts(w.host, Read(k.0, c.top, c.size), c.outs) else w.host)
  }

  /** The size test of doCallAsync. */
  predicate FitsOne(env: Env, c: CallSpec) { !(c.cin || c.cout) || c.size <= HeadLimit(env, |c.regs|) }

  /** The bytes of a call message with stack: 40 of its own, the registers, the part of the stack that travels along. */
  function MessageSize(m: Msg): nat
    requires m.MCallStk?
  {
    40 + 8 * |m.regs| + |m.buf|
  }

  /** A call message with stack never exceeds the capacity of the channel, and leaves none of it unused as long as there
  are stack bytes to send. */
  lemma MessageFits(env: Env, op: Op, host: Mem)
    requires op.Call? && (op.copyin || op.copyout) && 40 + 8 * |op.regs| <= env.maxCmd
    ensures var m := MsgOf(env, op, host);
      && m.MCallStk? && MessageSize(m) <= env.maxCmd && |m.buf| <= op.stackSize
      && (|m.buf| == op.stackSize || MessageSize(m) == env.maxCmd)
  {
  }

  /** A call is sent in one message exactly if that message fits; of a split call the head fills it. */
  lemma FitsOneExactly(env: Env, c: CallSpec, host: Mem)
    requires 40 + 8 * |c.regs| <= env.maxCmd
    ensures FitsOne(env, c) <==> !(c.cin || c.cout) || 40 + 8 * |c.regs| + c.size <= env.maxCmd
    ensures !FitsOne(env, c) ==> MessageSize(MsgOf(env, HeadOp(c), host)) == env.maxCmd
  {
    if !FitsOne(env, c) { MessageFits(env, HeadOp(c), host); }
  }

  /** A single message that has room for the whole image has exactly this effect and value. */
  lemma SingleMessage(env: Env, w: World, c: CallSpec)
    requires SpecOk(c, w) && FitsOne(env, c)
    ensures SeqStep(env, w, SimpleOp(c)) == CallEffect(env, w, c)
    ensures CallValue(env, w, SimpleOp(c)) == KernelRun(env, w, c).1
  {
    hide Write, Read, ApplyOuts, Kernel;
  }

  // ---- the split ----

  /** The parts of a split call: `head` bytes travel with the call, the rest by fragmented transfers. */
  ghost predicate SplitOps(env: Env, c: CallSpec, ws: seq<Op>, rs: seq<Op>, join: Op, ps: seq<Piece>, qs: seq<Piece>) {
    var head := HeadLimit(env, |c.regs|);
    && (c.cin || c.cout) && head < c.size && head % 8 == 0
    && (if c.cin then Tiles(ps, 0, c.size - head) && Sends(ws, ps, c.top + head, c.stack + head) else ws == [])
    && (if c.cout then Tiles(qs, 0, c.size - head) && Recvs(rs, qs, c.stack + head, c.top + head) else rs == [])
    && join.Join? && join.stack == c.stack && join.size == c.size && join.copyout == c.cout && join.outs == c.outs
  }

  lemma AfterWrites(env: Env, w: World, c: CallSpec, ws: seq<Op>, rs: seq<Op>, join: Op, ps: seq<Piece>, qs: seq<Piece>)
    requires SpecOk(c, w) && SplitOps(env, c, ws, rs, join, ps, qs)
    ensures var head := HeadLimit(env, |c.regs|);
      ExecSeq(env, w, ws) ==
      if c.cin then World(Write(w.ve, c.top + head, Read(w.host, c.stack + head, c.size - head)), w.host) else w
  {
    hide Tiles, Sends, Recvs, Write, Read;
    var head := HeadLimit(env, |c.regs|);
    if c.cin { WriteIsOneCopy(env, w, ws, ps, c.top + head, c.stack + head, c.size - head); }
  }

  /** The call message carries the head; what is on the VE stack when the kernel starts is the whole image. */
  lemma AfterCall(env: Env, w: World, c: CallSpec, ws: seq<Op>, rs: seq<Op>, join: Op, ps: seq<Piece>, qs: seq<Piece>)
    requires SpecOk(c, w) && SplitOps(env, c, ws, rs, join, ps, qs)
    ensures var head := HeadLimit(env, |c.regs|); var k := KernelRun(env, w, c); var w1 := ExecSeq(env, w, ws);
      && SeqStep(env, w1, HeadOp(c)) == World(k.0, if c.cout then Write(w.host, c.stack, Read(k.0, c.top, head)) else w.host)
      && CallValue(env, w1, HeadOp(c)) == k.1
  {
    hide Tiles, Sends, Recvs, Write, Read, Kernel, SeqStep, CallValue, HeadOp, ExecSeq;
    var head := HeadLimit(env, |c.regs|);
    AfterWrites(env, w, c, ws, rs, join, ps, qs);
    HeadAndRest(w, c, head);
    HeadStep(env, ExecSeq(env, w, ws), c);
  }

  /** One call message with the head of the image. */
  lemma HeadStep(env: Env, w: World, c: CallSpec)
    requires (c.cin || c.cout) && HeadLimit(env, |c.regs|) < c.size && HeadLimit(env, |c.regs|) % 8 == 0
    ensures var head := HeadLimit(env, |c.regs|);
      var k := Kernel(env, c.fn, c.regs, c.top, if c.cin then Write(w.ve, c.top, Read(w.host, c.stack, head)) else w.ve);
      && SeqStep(env, w, HeadOp(c)) == World(k.0, if c.cout then Write(w.host, c.stack, Read(k.0, c.top, head)) else w.host)
      && CallValue(env, w, HeadOp(c)) == k.1
  {
    hide Write, Read, Kernel;
  }

  lemma HeadAndRest(w: World, c: CallSpec, head: nat)
    requires SpecOk(c, w) && head <= c.size && (c.cin || c.cout)
    ensures Write(Write(w.ve, c.top + head, Read(w.host, c.stack + head, c.size - head)), c.top, Read(w.host, c.stack, head))
         == Write(w.ve, c.top, Read(w.host, c.stack, c.size))
  {
    hide Read, Write;
    ReadAdjacent(w.host, c.stack, head, c.size - head);
    WriteAdjacent(w.ve, c.top, Read(w.host, c.stack, head), Read(w.host, c.stack + head, c.size - head));
  }

  /** The rest of the stack follows the head that came with the reply. */
  lemma ReadBack(env: Env, host: Mem, ve: Mem, c: CallSpec, head: nat, rs: seq<Op>, qs: seq<Piece>)
    requires head <= c.size && c.top + c.size <= |ve| && c.stack + c.size <= |host|
    requires Tiles(qs, 0, c.size - head) && Recvs(rs, qs, c.stack + head, c.top + head)
    ensures ExecSeq(env, World(ve, Write(host, c.stack, Read(ve, c.top, head))), rs)
         == World(ve, Write(host, c.stack, Read(ve, c.top, c.size)))
  {
    hide Tiles, Recvs, Write, Read, ExecSeq;
    var w := World(ve, Write(host, c.stack, Read(ve, c.top, head)));
    ReadIsOneCopy(env, w, rs, qs, c.stack + head, c.top + head, c.size - head);
    CopyMore(host, ve, c.stack, c.top, head, c.size - head);
  }

  /** After the reads the whole VE stack area is back in the host's stack buffer. */
  lemma AfterReads(env: Env, w: World, c: CallSpec, ws: seq<Op>, rs: seq<Op>, join: Op, ps: seq<Piece>, qs: seq<Piece>)
    requires SpecOk(c, w) && SplitOps(env, c, ws, rs, join, ps, qs)
    ensures var k := KernelRun(env, w, c);
      ExecSeq(env, w, ws + [HeadOp(c)] + rs) ==
      World(k.0, if c.cout then Write(w.host, c.stack, Read(k.0, c.top, c.size)) else w.host)
  {
    hide KernelRun, Tiles, Sends, Recvs, Write, Read, SeqStep, ExecSeq, CallValue, HeadOp;
    var k := KernelRun(env, w, c);
    AfterCall(env, w, c, ws, rs, join, ps, qs);
    ExecSeqConcat(env, w, ws + [HeadOp(c)], rs);
    ExecSnoc(env, w, ws, HeadOp(c));
    if c.cout {
      ReadBack(env, w.host, k.0, c, HeadLimit(env, |c.regs|), rs, qs);
    } else {
      ExecNone(env, ExecSeq(env, w, ws + [HeadOp(c)]));
    }
  }

  /** Copying out of the stack buffer or of a message makes no difference outside the buffer. */
  lemma {:induction false} CopyOutOfBuffer(h1: Mem, h2: Mem, image: seq<Byte>, outs: seq<CopyOut>, stack: nat, x: nat)
    requires |h1| == |h2| && x < |h1| && (stack <= x < stack + |image| || h1[x] == h2[x])
    requires OutsOk(outs, |image|, |h1|)
    requires forall i :: 0 <= i < |outs| ==> Apart(Region(outs[i].buff, outs[i].len), Region(stack, |image|))
    ensures !(stack <= x < stack + |image|) ==> ApplyOuts(h1, image, outs)[x] == ApplyOuts(h2, image, outs)[x]
  {
    if outs != [] {
      CopyOutOfBuffer(h1, h2, image, outs[..|outs| - 1], stack, x);
    }
  }

  /** Same world but for the private stack buffer. */
  ghost predicate SameOutside(a: World, b: World, stack: nat, size: nat) {
    && a.ve == b.ve && |a.host| == |b.host|
    && forall x :: 0 <= x < |a.host| && !(stack <= x < stack + size) ==> a.host[x] == b.host[x]
  }

  /** Refinement of the split: the whole sequence of parts leaves VE memory and every host byte outside the
  stack buffer as the single call would. */
  lemma SplitRefinesCall(env: Env, w: World, c: CallSpec, ws: seq<Op>, rs: seq<Op>, join: Op, ps: seq<Piece>, qs: seq<Piece>)
    requires SpecOk(c, w) && Private(c) && SplitOps(env, c, ws, rs, join, ps, qs)
    ensures SameOutside(ExecSeq(env, w, ws + [HeadOp(c)] + rs + [join]), CallEffect(env, w, c), c.stack, c.size)
    ensures CallValue(env, ExecSeq(env, w, ws), HeadOp(c)) == KernelRun(env, w, c).1
  {
    AfterReads(env, w, c, ws, rs, join, ps, qs);
    AfterCall(env, w, c, ws, rs, join, ps, qs);
    ExecSnoc(env, w, ws + [HeadOp(c)] + rs, join);
    hide KernelRun, Tiles, Sends, Recvs, ApplyOuts, CallValue;
    var k := KernelRun(env, w, c);
    if c.cout {
      var image := Read(k.0, c.top, c.size);
      var h := Write(w.host, c.stack, image);
      assert Read(h, c.stack, c.size) == image;
      forall x | 0 <= x < |h| && !(c.stack <= x < c.stack + c.size)
        ensures ApplyOuts(h, image, c.outs)[x] == ApplyOuts(w.host, image, c.outs)[x]
      {
        CopyOutOfBuffer(h, w.host, image, c.outs, c.stack, x);
      }
    }
  }

  // ---- end to end ----

  /** Commands of a large call as they stand in push order: write chain, call, read chain, join. */
  ghost predicate SplitBlock(env: Env, c: CallSpec, cmds: seq<Command>, nw: nat, ps: seq<Piece>, qs: seq<Piece>) {
    && nw + 2 <= |cmds|
    && cmds[nw].op == HeadOp(c)
    && cmds[|cmds| - 1].op.Join? && cmds[|cmds| - 1].op.call == Some(cmds[nw].id)
    && SplitOps(env, c, CmdOps(cmds[..nw]), CmdOps(cmds[nw + 1..|cmds| - 1]), cmds[|cmds| - 1].op, ps, qs)
  }

  /** Memory of the host that belongs to a call while it is under way: its stack buffer and what it writes back. */
  function CallRegions(c: CallSpec): seq<Region> { [Region(c.stack, c.size)] + OutRegions(c.outs) }

  /** A part of a region stays clear with it. */
  lemma ClearPart(es: seq<Stored>, lo: int, hi: int, rs: seq<Region>, k: nat, r: Region)
    requires Clear(es, lo, hi, rs) && k < |rs| && rs[k].addr <= r.addr && r.addr + r.len <= rs[k].addr + rs[k].len
    ensures Clear(es, lo, hi, [r])
  {
    forall i | 0 <= i < |es| && lo < es[i].pos <= hi ensures AllApart([Area(es[i])], [r]) {
      assert Apart([Area(es[i])][0], rs[k]);
    }
  }

  lemma ClearTail(es: seq<Stored>, lo: int, hi: int, r: Region, rs: seq<Region>)
    requires Clear(es, lo, hi, [r] + rs)
    ensures Clear(es, lo, hi, rs)
  {
    forall i | 0 <= i < |es| && lo < es[i].pos <= hi ensures AllApart([Area(es[i])], rs) {
      forall k | 0 <= k < |rs| ensures Apart(Area(es[i]), rs[k]) { assert Apart([Area(es[i])][0], ([r] + rs)[k + 1]); }
    }
  }

  /** The commands from `a` to `b`, and writes that do not concern them. */
  ghost predicate Alone(env: Env, p: Program, a: nat, b: nat)
    requires a <= b <= |p.pushed|
  {
    forall k :: a <= k < b ==>
      Clear(p.stores, a, b - 1, Reads(env, p.pushed[k].cmd.op)) && Clear(p.stores, a, b - 1, Writes(env, p.pushed[k].cmd.op))
  }

  /** A block that the application leaves alone acts as a whole; its writes may as well have come afterwards. */
  lemma {:induction false} AfterBlock(env: Env, p: Program, a: nat, b: nat)
    requires a <= b <= |p.pushed| && Ordered(p.stores, |p.pushed|) && Alone(env, p, a, b)
    ensures var u := ExecSeq(env, After(env, p, a), CmdOps(Cmds(p.pushed[a..b])));
      After(env, p, b) == u.(host := Put(u.host, p.stores, a, b))
    decreases b
  {
    hide SeqStep, Clear, Reads, Writes;
    if a == b {
      assert p.pushed[a..b] == [];
      PutNone(After(env, p, a).host, p.stores, a, a);
    } else {
      hide Put;
      AloneFront(env, p, a, b);
      AfterBlock(env, p, a, b - 1);
      var ops, front, op := CmdOps(Cmds(p.pushed[a..b])), CmdOps(Cmds(p.pushed[a..b - 1])), p.pushed[b - 1].cmd.op;
      assert ops == front + [op];
      var u := ExecSeq(env, After(env, p, a), front);
      ExecSnoc(env, After(env, p, a), front, op);
      StepCommutes(env, u, op, p.stores, a, b - 1);
      PutJoin(SeqStep(env, u, op).host, p.stores, |p.pushed|, a, b - 1, b);
    }
  }

  lemma AloneFront(env: Env, p: Program, a: nat, b: nat)
    requires a < b <= |p.pushed| && Alone(env, p, a, b)
    ensures Alone(env, p, a, b - 1)
  {
    forall k | a <= k < b - 1
      ensures Clear(p.stores, a, b - 2, Reads(env, p.pushed[k].cmd.op)) && Clear(p.stores, a, b - 2, Writes(env, p.pushed[k].cmd.op))
    {
      ClearSooner(p.stores, a, b - 1, b - 2, Reads(env, p.pushed[k].cmd.op));
      ClearSooner(p.stores, a, b - 1, b - 2, Writes(env, p.pushed[k].cmd.op));
    }
  }

  lemma ClearSooner(es: seq<Stored>, lo: int, hi: int, hi': int, rs: seq<Region>)
    requires Clear(es, lo, hi, rs) && hi' <= hi
    ensures Clear(es, lo, hi', rs)
  {
  }

  lemma BlockRefines(env: Env, w: World, c: CallSpec, cmds: seq<Command>, nw: nat, ps: seq<Piece>, qs: seq<Piece>)
    requires SpecOk(c, w) && Private(c) && SplitBlock(env, c, cmds, nw, ps, qs)
    ensures SameOutside(ExecSeq(env, w, CmdOps(cmds)), CallEffect(env, w, c), c.stack, c.size)
    ensures CallValue(env, ExecSeq(env, w, CmdOps(cmds[..nw])), HeadOp(c)) == KernelRun(env, w, c).1
  {
    hide ExecSeq, SplitOps, SameOutside, CallValue, KernelRun, SpecOk, Private;
    var ws := CmdOps(cmds[..nw]);
    var rs := CmdOps(cmds[nw + 1..|cmds| - 1]);
    var join := cmds[|cmds| - 1].op;
    SplitRefinesCall(env, w, c, ws, rs, join, ps, qs);
    assert CmdOps(cmds) == ws + [HeadOp(c)] + rs + [join];
  }

  /** The value a join returns is the value of its call part. */
  lemma JoinValue(env: Env, s: State, call: nat)
    requires Inv(env, s) && ChainInv(s) && CleanInv(s) && s.hist.clean && CanRunVH(s)
    requires s.phase.cmd.op.Join? && s.phase.cmd.op.call == Some(call)
    ensures call in s.hist.book && s.hist.book[call].loc.Finished?
    ensures DoRunVH(env, s).phase.out.res == Result(Ok, s.hist.book[call].loc.out.res.retval)
  {
    hide Inv, Unstolen, VhEffect, OnVH, Recipients, Freed;
    var t := DoRunVH(env, s);
    var c := s.phase.cmd;
    InHand(env, s);
    RunVHChains(env, s);
    RunVHClean(env, s);
    RefsUntaken(env, s, c);
    VHDelivers(env, s.ledger, s.host, c);
    assert Verdict(t.hist.book, t.ledger.delivered, c.id, c.op, t.phase.out);
    assert JoinVerdict(t.hist.book, t.ledger.delivered, c.id, c.op, t.phase.out.res);
    assert call in c.op.Refs();
  }

  /** The worlds around a VH command that is about to run in a clean state. */
  lemma WorldAtVH(env: Env, s: State)
    requires Inv(env, s) && ChainInv(s) && CleanInv(s) && SimInv(env, s)
    requires s.hist.clean && !s.hist.raced && CanRunVH(s)
    ensures 0 <= Begun(s) < |s.hist.pushed|
    ensures var t := DoRunVH(env, s); var b := Begun(s) + 1;
      t.ve == After(env, Prog(s.hist), b).ve && t.host == HostNow(env, Prog(s.hist), b)
  {
    hide Inv, ChainInv, CleanInv, OnVH, VhEffect, After, Values, SlotSim, HostNow, Untouched, Ordered;
    InHand(env, s);
    QuietWire(env, s) by { NotAborted(env, s); }
    RunVHSim(env, s);
    NotAborted(env, s);
  }

  lemma ValueOfCall(env: Env, s: State, i: nat)
    requires Inv(env, s) && SimInv(env, s) && s.hist.clean && !s.hist.raced
    requires i < |s.hist.pushed| && s.hist.pushed[i].cmd.op.Call? && s.hist.pushed[i].cmd.id in s.hist.book
    requires s.hist.book[s.hist.pushed[i].cmd.id].loc.Finished?
    ensures s.hist.book[s.hist.pushed[i].cmd.id].loc.out.res.retval
         == CallValue(env, After(env, Prog(s.hist), i), s.hist.pushed[i].cmd.op)
  {
    hide Backward, Queue, Hand, Flight, Wire, Slotted, Books, Issued, Sessions, Fifo, Barrier;
    hide Sim, After, CallValue, Untouched, Ordered;
  }

  lemma BlockParts(pushed: seq<Push>, a: nat, b: nat, nw: nat)
    requires a + nw < b <= |pushed|
    ensures var cmds := Cmds(pushed[a..b]);
      && |cmds| == b - a && cmds[nw] == pushed[a + nw].cmd && cmds[|cmds| - 1] == pushed[b - 1].cmd
      && cmds[..nw] == Cmds(pushed[a..a + nw])
  {
  }

  /** Writes that stay away from the call's memory stay away from each part of its block. */
  lemma BlockAlone(env: Env, p: Program, c: CallSpec, a: nat, b: nat, nw: nat, ps: seq<Piece>, qs: seq<Piece>)
    requires a < b <= |p.pushed| && SplitBlock(env, c, Cmds(p.pushed[a..b]), nw, ps, qs)
    requires Clear(p.stores, a, b - 1, CallRegions(c))
    ensures Alone(env, p, a, b)
  {
    var cmds := Cmds(p.pushed[a..b]);
    ClearTail(p.stores, a, b - 1, Region(c.stack, c.size), OutRegions(c.outs));
    forall k | a <= k < b
      ensures Clear(p.stores, a, b - 1, Reads(env, p.pushed[k].cmd.op)) && Clear(p.stores, a, b - 1, Writes(env, p.pushed[k].cmd.op))
    {
      assert p.pushed[k].cmd == cmds[k - a];
      PartInside(env, c, cmds, nw, ps, qs, k - a);
      var op := cmds[k - a].op;
      hide SplitBlock, Clear, OutRegions, CallRegions;
      if |Reads(env, op)| == 1 { ClearPart(p.stores, a, b - 1, CallRegions(c), 0, Reads(env, op)[0]); }
      if |Writes(env, op)| == 1 && Writes(env, op) != OutRegions(c.outs) {
        ClearPart(p.stores, a, b - 1, CallRegions(c), 0, Writes(env, op)[0]);
      }
      assert |Reads(env, op)| == 1 ==> Reads(env, op) == [Reads(env, op)[0]];
      assert |Writes(env, op)| == 1 ==> Writes(env, op) == [Writes(env, op)[0]];
      if Reads(env, op) == [] { NothingClear(p.stores, a, b - 1); }
      if Writes(env, op) == [] { NothingClear(p.stores, a, b - 1); }
    }
  }

  lemma NothingClear(es: seq<Stored>, lo: int, hi: int)
    ensures Clear(es, lo, hi, [])
  {
  }

  /** Each part of a split call uses a part of the stack buffer; the join also writes the buffers of the arguments. */
  lemma PartInside(env: Env, c: CallSpec, cmds: seq<Command>, nw: nat, ps: seq<Piece>, qs: seq<Piece>, i: nat)
    requires SplitBlock(env, c, cmds, nw, ps, qs) && i < |cmds|
    ensures var rs := Reads(env, cmds[i].op);
      rs == [] || (|rs| == 1 && c.stack <= rs[0].addr && rs[0].addr + rs[0].len <= c.stack + c.size)
    ensures var rs := Writes(env, cmds[i].op);
      rs == [] || rs == OutRegions(c.outs) || (|rs| == 1 && c.stack <= rs[0].addr && rs[0].addr + rs[0].len <= c.stack + c.size)
  {
    var n, head := |cmds| - 1, HeadLimit(env, |c.regs|);
    if i < nw {
      assert CmdOps(cmds[..nw])[i] == cmds[i].op;
      if c.cin { TileInside(ps, 0, c.size - head, i); }
    } else if nw < i < n {
      assert CmdOps(cmds[nw + 1..n])[i - nw - 1] == cmds[i].op;
      if c.cout { TileInside(qs, 0, c.size - head, i - nw - 1); }
    }
  }

  lemma {:induction false} TileInside(ps: seq<Piece>, from: nat, to: nat, i: nat)
    requires Tiles(ps, from, to) && i < |ps|
    ensures from <= ps[i].off && ps[i].off + ps[i].len <= to
  {
    var n := |ps| - 1;
    if i < n { TileInside(ps[..n], from, ps[n].off, i); }
  }

  /** The memories when the join of a large call has run; writes made since the block began come on top. */
  lemma LargeCallWorld(env: Env, s: State, c: CallSpec, a: nat, nw: nat, ps: seq<Piece>, qs: seq<Piece>)
    requires Inv(env, s) && ChainInv(s) && CleanInv(s) && SimInv(env, s)
    requires s.hist.clean && !s.hist.raced && CanRunVH(s)
    requires a <= Begun(s) < |s.hist.pushed| && Clear(s.hist.stores, a, Begun(s), CallRegions(c))
    requires SplitBlock(env, c, Cmds(s.hist.pushed[a..Begun(s) + 1]), nw, ps, qs)
    requires SpecOk(c, After(env, Prog(s.hist), a)) && Private(c)
    ensures var w := After(env, Prog(s.hist), a); var t := DoRunVH(env, s); var e := CallEffect(env, w, c);
      SameOutside(World(t.ve, t.host), e.(host := Put(e.host, s.hist.stores, a, |s.hist.pushed|)), c.stack, c.size)
  {
    hide Inv, ChainInv, CleanInv, SpecOk, Private, CallEffect, KernelRun, Clear, CallRegions;
    hide OnVH, VhEffect, After, ExecSeq, SplitBlock, SplitOps, CallValue, Put, DoRunVH, Untouched, Sim, Values;
    var p, b, n := Prog(s.hist), Begun(s) + 1, |s.hist.pushed|;
    WorldAtVH(env, s);
    BlockAlone(env, p, c, a, b, nw, ps, qs);
    AfterBlock(env, p, a, b);
    var w := After(env, p, a);
    BlockRefines(env, w, c, Cmds(s.hist.pushed[a..b]), nw, ps, qs);
    var u, e := ExecSeq(env, w, CmdOps(Cmds(s.hist.pushed[a..b]))), CallEffect(env, w, c);
    PutJoin(u.host, p.stores, n, a, b, n);
    forall x | 0 <= x < |u.host| && !(c.stack <= x < c.stack + c.size)
      ensures Put(u.host, p.stores, a, n)[x] == Put(e.host, p.stores, a, n)[x]
    {
      PutAgree(u.host, e.host, p.stores, a, n, x);
    }
  }

  /** The call part of a split block in push order. */
  lemma CallPartAt(env: Env, c: CallSpec, pushed: seq<Push>, a: nat, b: nat, nw: nat, ps: seq<Piece>, qs: seq<Piece>)
    requires a < b <= |pushed| && SplitBlock(env, c, Cmds(pushed[a..b]), nw, ps, qs)
    ensures a + nw < b && pushed[a + nw].cmd.op == HeadOp(c)
    ensures pushed[b - 1].cmd.op.Join? && pushed[b - 1].cmd.op.call == Some(pushed[a + nw].cmd.id)
  {
    hide SplitOps;
    BlockParts(pushed, a, b, nw);
  }

  /** What a VE command sends and returns does not depend on memory it does not read. */
  lemma ValueCommutes(env: Env, w: World, op: Op, es: seq<Stored>, lo: int, hi: int)
    requires op.Call? && Clear(es, lo, hi, Reads(env, op))
    ensures var w' := w.(host := Put(w.host, es, lo, hi));
      MsgOf(env, op, w'.host) == MsgOf(env, op, w.host) && CallValue(env, w', op) == CallValue(env, w, op)
  {
    hide Reads, Outside, Clear, Put, Handle, MsgOf;
    forall y | 0 <= y < |w.host| && !Outside(y, Reads(env, op)) ensures Put(w.host, es, lo, hi)[y] == w.host[y] {
      ClearAt(es, lo, hi, Reads(env, op), y);
      PutElsewhere(w.host, es, lo, hi, y);
    }
    MsgFrame(env, op, w.host, Put(w.host, es, lo, hi));
  }

  /** The world in which the call part of a block gets its turn. */
  lemma WorldAtCall(env: Env, p: Program, c: CallSpec, a: nat, b: nat, nw: nat, ps: seq<Piece>, qs: seq<Piece>)
    requires a < b <= |p.pushed| && SplitBlock(env, c, Cmds(p.pushed[a..b]), nw, ps, qs)
    requires Ordered(p.stores, |p.pushed|) && Clear(p.stores, a, b - 1, CallRegions(c))
    ensures a + nw < b && p.pushed[a + nw].cmd.op == HeadOp(c)
    ensures var u := ExecSeq(env, After(env, p, a), CmdOps(Cmds(p.pushed[a..b])[..nw]));
      After(env, p, a + nw) == u.(host := Put(u.host, p.stores, a, a + nw))
    ensures Clear(p.stores, a, a + nw, Reads(env, HeadOp(c)))
  {
    hide After, ExecSeq, Cmds, CmdOps, Put, CallRegions, Clear, SplitBlock, Alone, Ordered, HeadOp, Reads;
    CallPartAt(env, c, p.pushed, a, b, nw, ps, qs);
    BlockParts(p.pushed, a, b, nw);
    BlockAlone(env, p, c, a, b, nw, ps, qs);
    AloneReads(env, p, a, b, a + nw);
    AlonePrefix(env, p, a, b, a + nw);
    AfterBlock(env, p, a, a + nw);
    ClearSooner(p.stores, a, b - 1, a + nw, Reads(env, p.pushed[a + nw].cmd.op));
  }

  lemma AloneReads(env: Env, p: Program, a: nat, b: nat, k: nat)
    requires a <= k < b <= |p.pushed| && Alone(env, p, a, b)
    ensures Clear(p.stores, a, b - 1, Reads(env, p.pushed[k].cmd.op))
  {
  }

  lemma {:induction false} AlonePrefix(env: Env, p: Program, a: nat, b: nat, m: nat)
    requires a <= m <= b <= |p.pushed| && Alone(env, p, a, b)
    ensures Alone(env, p, a, m)
    decreases b
  {
    hide Alone;
    if m < b {
      AloneFront(env, p, a, b);
      AlonePrefix(env, p, a, b - 1, m);
    }
  }

  /** The value the call part returns is the kernel's. */
  lemma CallPartValue(env: Env, p: Program, c: CallSpec, a: nat, b: nat, nw: nat, ps: seq<Piece>, qs: seq<Piece>)
    requires a < b <= |p.pushed| && SplitBlock(env, c, Cmds(p.pushed[a..b]), nw, ps, qs)
    requires SpecOk(c, After(env, p, a)) && Private(c)
    requires Ordered(p.stores, |p.pushed|) && Clear(p.stores, a, b - 1, CallRegions(c))
    ensures a + nw < b && CallValue(env, After(env, p, a + nw), HeadOp(c)) == KernelRun(env, After(env, p, a), c).1
  {
    hide SplitBlock, SpecOk, Private, KernelRun, After, CallValue, ExecSeq, Cmds, CmdOps, SameOutside, Clear, Put, CallRegions;
    WorldAtCall(env, p, c, a, b, nw, ps, qs);
    BlockRefines(env, After(env, p, a), c, Cmds(p.pushed[a..b]), nw, ps, qs);
    ValueCommutes(env, ExecSeq(env, After(env, p, a), CmdOps(Cmds(p.pushed[a..b])[..nw])), HeadOp(c), p.stores, a, a + nw);
  }

  /** The result of the join of a large call. */
  lemma LargeCallResult(env: Env, s: State, c: CallSpec, a: nat, nw: nat, ps: seq<Piece>, qs: seq<Piece>)
    requires Inv(env, s) && ChainInv(s) && CleanInv(s) && SimInv(env, s)
    requires s.hist.clean && !s.hist.raced && CanRunVH(s)
    requires a <= Begun(s) < |s.hist.pushed| && Clear(s.hist.stores, a, Begun(s), CallRegions(c))
    requires SplitBlock(env, c, Cmds(s.hist.pushed[a..Begun(s) + 1]), nw, ps, qs)
    requires SpecOk(c, After(env, Prog(s.hist), a)) && Private(c)
    ensures DoRunVH(env, s).phase.out.res == Result(Ok, KernelRun(env, After(env, Prog(s.hist), a), c).1)
  {
    hide Inv, ChainInv, CleanInv, SpecOk, Private, KernelRun, DoRunVH, SplitBlock, After, CallValue, Clear;
    hide Untouched, Sim, Values, CallRegions;
    var b := Begun(s) + 1;
    CallPartAt(env, c, s.hist.pushed, a, b, nw, ps, qs);
    InHand(env, s);
    JoinValue(env, s, s.hist.pushed[a + nw].cmd.id);
    ValueOfCall(env, s, a + nw);
    CallPartValue(env, Prog(s.hist), c, a, b, nw, ps, qs);
  }

  /** Main theorem for large calls.  In every clean run, when the join of a large call runs, the asynchronous
  machinery has done what one call with an unlimited message would have done to the world in which the
  block of the call started: same VE memory, same host memory outside the stack buffer but for later writes of the
  application, and the join returns OK with the value of the kernel. */
  lemma LargeCallEndToEnd(env: Env, s: State, c: CallSpec, a: nat, nw: nat, ps: seq<Piece>, qs: seq<Piece>)
    requires Reachable(env, s) && s.hist.clean && !s.hist.raced && CanRunVH(s)
    requires a <= Begun(s) < |s.hist.pushed| && Clear(s.hist.stores, a, Begun(s), CallRegions(c))
    requires SplitBlock(env, c, Cmds(s.hist.pushed[a..Begun(s) + 1]), nw, ps, qs)
    requires SpecOk(c, After(env, Prog(s.hist), a)) && Private(c)
    ensures var w := After(env, Prog(s.hist), a); var t := DoRunVH(env, s); var e := CallEffect(env, w, c);
      && SameOutside(World(t.ve, t.host), e.(host := Put(e.host, s.hist.stores, a, |s.hist.pushed|)), c.stack, c.size)
      && t.phase.out.res == Result(Ok, KernelRun(env, w, c).1)
  {
    hide *;
    ReachableSim(env, s);
    LargeCallWorld(env, s, c, a, nw, ps, qs);
    LargeCallResult(env, s, c, a, nw, ps, qs);
  }

  // ---- calls described by their arguments ----

  lemma {:induction false} OutListed(args: seq<Arg>, k: nat, i: nat) returns (n: nat)
    requires i < k <= |args| && IsOut(args, i)
    ensures n < |Outs(args, k)| && Outs(args, k)[n] == CopyOut(args[i].buff, args[i].len, Off(args, i))
  {
    if i == k - 1 { n := |Outs(args, k)| - 1; } else { n := OutListed(args, k - 1, i); }
  }

  /** What setup, getRegVal and copyout make of a call of `fn` with stack buffer `stack`. */
  function CallFor(fn: nat, args: seq<Arg>, sp: Word, stack: nat): CallSpec {
    var size := Round16(Off(args, |args|));
    var top := StackTop(sp, size);
    CallSpec(fn, Regs(args, top), top, size, CopiesIn(args, |args|), CopiesOut(args, |args|), stack, Outs(args, |args|))
  }

  /** The prepared call is that of the arguments: registers, size, directions and copy-outs are theirs. */
  ghost predicate CallOf(c: CallSpec, args: seq<Arg>) {
    && ArgsOk(args) && OutsApart(args) && Private(c) && c.top < TWO64
    && c.size == Round16(Off(args, |args|)) && c.regs == Regs(args, c.top) && c.outs == Outs(args, |args|)
    && c.cin == CopiesIn(args, |args|) && c.cout == CopiesOut(args, |args|)
  }

  /** Each OUT or INOUT buffer ends up with the bytes the kernel left at the argument's VE address. */
  lemma OutBufferDelivered(env: Env, w: World, c: CallSpec, args: seq<Arg>, i: nat)
    requires CallOf(c, args) && SpecOk(c, w) && i < |args| && IsOut(args, i)
    ensures args[i].buff + args[i].len <= |w.host|
    ensures Read(CallEffect(env, w, c).host, args[i].buff, args[i].len)
         == Read(KernelRun(env, w, c).0, c.top + Off(args, i), args[i].len)
  {
    hide ApplyOuts, Outs, KernelRun, CopiesOut, CopiesIn, Image, Regs;
    var n := OutListed(args, |args|, i);
    assert c.outs[n] == CopyOut(args[i].buff, args[i].len, Off(args, i));
    OutMeansCopied(args, i);
    CopyOutDelivers(w.host, Read(KernelRun(env, w, c).0, c.top, c.size), args, |args|, i);
    SubRead(KernelRun(env, w, c).0, c.top, c.size, Off(args, i), args[i].len);
  }

  /** Every host byte outside the OUT buffers is unchanged. */
  lemma RestUnchanged(env: Env, w: World, c: CallSpec, args: seq<Arg>, x: nat)
    requires CallOf(c, args) && SpecOk(c, w) && x < |w.host|
    requires forall j :: 0 <= j < |args| && IsOut(args, j) ==> !Region(args[j].buff, args[j].len).Has(x)
    ensures CallEffect(env, w, c).host[x] == w.host[x]
  {
    hide ApplyOuts, Outs, KernelRun, CopiesOut, CopiesIn, Image, Regs;
    CopyOutElsewhere(w.host, Read(KernelRun(env, w, c).0, c.top, c.size), args, |args|, x);
  }

  lemma OutMeansCopied(args: seq<Arg>, i: nat)
    requires i < |args| && IsOut(args, i)
    ensures CopiesOut(args, |args|)
  {
  }

  lemma SubRead(m: Mem, a: nat, n: nat, off: nat, len: nat)
    requires a + n <= |m| && off + len <= n
    ensures Read(Read(m, a, n), off, len) == Read(m, a + off, len)
  {
  }
}
