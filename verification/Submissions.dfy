/** What a submission does to the engine: the requests it pushes, and the run it performs (Context.cpp, Context.hpp,
AsyncTransfer.cpp). */
module Submissions {
  import opened Memory
  import opened Protocol
  import opened Engine
  import opened EngineInv
  import opened Sequential
  import opened Transfer
  import opened Marshalling
  import opened LargeCall

  /** The steps of one submission, and the state they lead to. */
  function EnqueueSteps(tid: Tid, op: Op): seq<Step> {
    (if op.Nowait() then [Issue(tid, op), Forget(tid)] else [Issue(tid, op)]) + [Lock(tid), PushReq(tid), Unlock(tid)]
  }

  function Enqueued(s: State, tid: Tid, op: Op): State {
    var c := Command(s.seqNo, op);
    var session := if s.depth == 0 then s.session + 1 else s.session;
    s.(seqNo := s.seqNo + 1, session := session, request := s.request + [c],
       ledger := if op.Nowait() then s.ledger else s.ledger.(rem := s.ledger.rem + {s.seqNo}),
       hist := DoIssue(s, tid, op).hist.(pushed := s.hist.pushed + [Push(c, tid, session)],
                                         book := s.hist.book[c.id := Entry(c, |s.hist.pushed|, Queued)]))
  }

  /** A thread may submit: it is not in a submission, and the lock is free or its own. */
  predicate MaySubmit(s: State, tid: Tid) { tid !in s.pending && CanLock(s, tid) }

  function OnePush(id: Option<nat>, op: Op, tid: Tid, session: nat): seq<Push> {
    match id case None => [] case Some(x) => [Push(Command(x, op), tid, session)]
  }

  /** The request for one fragment of a transfer. */
  function FragOp(send: bool, dst: nat, src: nat, p: Piece, prev: Option<nat>): Op {
    if send then Send(dst + p.off, src + p.off, p.len, prev) else Recv(dst + p.off, src + p.off, p.len, prev)
  }

  lemma FragInside(env: Env, send: bool, dst: nat, src: nat, size: nat, p: Piece, prev: Option<nat>, ve: nat, host: nat)
    requires OpOk(env, FragOp(send, dst, src, Piece(0, size), None), ve, host) && p.off + p.len <= size
    ensures OpOk(env, FragOp(send, dst, src, p, prev), ve, host)
  {
  }

  function FragSize(env: Env, cfg: Settings, send: bool, size: nat): nat {
    if send then WriteFrag(env, cfg, size) else ReadFrag(env, cfg, size)
  }

  function LastId(block: seq<Push>): Option<nat> {
    if block == [] then None else Some(block[|block| - 1].cmd.id)
  }

  /** The requests of a transfer, or of the beginning of one: each fragment names the one before it. */
  ghost predicate Linked(block: seq<Push>, tid: Tid, send: bool, dst: nat, src: nat, ps: seq<Piece>) {
    && |block| <= |ps|
    && forall i :: 0 <= i < |block| ==>
         block[i].tid == tid && block[i].cmd.op == FragOp(send, dst, src, ps[i], LastId(block[..i]))
  }

  lemma NoLinks(tid: Tid, send: bool, dst: nat, src: nat, ps: seq<Piece>)
    ensures Linked([], tid, send, dst, src, ps)
  {
  }

  lemma LinkMore(block: seq<Push>, tid: Tid, send: bool, dst: nat, src: nat, ps: seq<Piece>, id: nat, session: nat)
    requires Linked(block, tid, send, dst, src, ps) && |block| < |ps|
    ensures Linked(block + OnePush(Some(id), FragOp(send, dst, src, ps[|block|], LastId(block)), tid, session),
                   tid, send, dst, src, ps)
  {
    var more := block + OnePush(Some(id), FragOp(send, dst, src, ps[|block|], LastId(block)), tid, session);
    forall i | 0 <= i < |more| ensures more[..i] == block[..i] { }
  }

  /** The next fragment may name the last one. */
  lemma LinkRef(block: seq<Push>, tid: Tid, send: bool, dst: nat, src: nat, ps: seq<Piece>, book: Book)
    requires Linked(block, tid, send, dst, src, ps)
    requires forall i :: 0 <= i < |block| ==> block[i].cmd.id in book && book[block[i].cmd.id].cmd == block[i].cmd
    ensures forall p :: RefsOk(FragOp(send, dst, src, p, LastId(block)), book)
  {
    if block != [] {
      var last := block[|block| - 1];
      assert !last.cmd.op.Nowait();
    }
  }

  // ---- split calls ----

  /** The call's buffers are inside the memories; the registers leave room in a message of whole words. */
  predicate CallInside(env: Env, c: CallSpec, veLen: nat, hostLen: nat) {
    && OpOk(env, SimpleOp(c), veLen, hostLen)
    && SEND_CALL_CMD_SIZE_WITHOUT_DATA + 8 * |c.regs| <= env.maxCmd && env.maxCmd % 8 == 0
  }

  /** The fragment sizes of the extra transfers are not zero. */
  predicate FragsOk(env: Env, c: CallSpec, send: Settings, recv: Settings) {
    var rest := c.size - HeadLimit(env, |c.regs|);
    rest > 0 ==> FragSize(env, send, true, rest) > 0 && FragSize(env, recv, false, rest) > 0
  }

  predicate SplitCase(env: Env, c: CallSpec, send: Settings, recv: Settings, veLen: nat, hostLen: nat) {
    CallInside(env, c, veLen, hostLen) && !FitsOne(env, c) && FragsOk(env, c, send, recv)
  }

  lemma PartsInside(env: Env, c: CallSpec, send: Settings, recv: Settings, veLen: nat, hostLen: nat)
    requires SplitCase(env, c, send, recv, veLen, hostLen)
    ensures var head := HeadLimit(env, |c.regs|);
      && head < c.size && OpOk(env, HeadOp(c), veLen, hostLen)
      && FragSize(env, send, true, c.size - head) > 0 && FragSize(env, recv, false, c.size - head) > 0
      && OpOk(env, FragOp(true, c.top + head, c.stack + head, Piece(0, c.size - head), None), veLen, hostLen)
      && OpOk(env, FragOp(false, c.stack + head, c.top + head, Piece(0, c.size - head), None), veLen, hostLen)
    ensures forall w, k, r :: OpOk(env, Join(w, k, r, c.stack, c.size, c.cout, c.outs), veLen, hostLen)
  {
  }

  /** What submitting an extra transfer leaves behind: nothing if it is not wanted, too short a chain if it was
  not accepted, the whole chain with its last id otherwise. */
  ghost predicate PartOf(env: Env, cfg: Settings, wanted: bool, tid: Tid, send: bool, dst: nat, src: nat, size: nat,
                         id: Option<nat>, block: seq<Push>)
  {
    var frag := FragSize(env, cfg, send, size);
    if !wanted then id == None && block == []
    else
      && frag > 0 && Linked(block, tid, send, dst, src, Pieces(0, size, frag))
      && (if id.Some? then |block| == |Pieces(0, size, frag)| && id == LastId(block) else |block| < |Pieces(0, size, frag)|)
  }

  ghost predicate WholeCall(env: Env, c: CallSpec, send: Settings, recv: Settings, block: seq<Push>) {
    var rest := c.size - HeadLimit(env, |c.regs|);
    && rest > 0 && FragSize(env, send, true, rest) > 0 && FragSize(env, recv, false, rest) > 0
    && var ps := Pieces(0, rest, FragSize(env, send, true, rest));
       var qs := Pieces(0, rest, FragSize(env, recv, false, rest));
       var nw := if c.cin then |ps| else 0;
       SplitBlock(env, c, Cmds(block), nw, ps, qs) && LinkedParts(block, nw)
  }

  /** Every transfer names the one before it. */
  ghost predicate Chained(block: seq<Push>) {
    forall i :: 0 <= i < |block| ==>
      (block[i].cmd.op.Send? || block[i].cmd.op.Recv?) && block[i].cmd.op.prev == LastId(block[..i])
  }

  /** The join of a split call names the last transfer of each chain and the call at `nw`. */
  ghost predicate LinkedParts(block: seq<Push>, nw: nat) {
    var n := |block| - 1;
    && nw < n && Chained(block[..nw]) && Chained(block[nw + 1..n])
    && block[n].cmd.op.Join? && block[n].cmd.op.call == Some(block[nw].cmd.id)
    && block[n].cmd.op.write == LastId(block[..nw]) && block[n].cmd.op.read == LastId(block[nw + 1..n])
  }

  lemma LinkedIsChained(block: seq<Push>, tid: Tid, send: bool, dst: nat, src: nat, ps: seq<Piece>)
    requires Linked(block, tid, send, dst, src, ps)
    ensures Chained(block)
  {
  }

  lemma LinkedOps(block: seq<Push>, tid: Tid, send: bool, dst: nat, src: nat, ps: seq<Piece>)
    requires Linked(block, tid, send, dst, src, ps) && |block| == |ps|
    ensures if send then Sends(CmdOps(Cmds(block)), ps, dst, src) else Recvs(CmdOps(Cmds(block)), ps, dst, src)
  {
  }

  ghost predicate CallPart(c: CallSpec, tid: Tid, call: Option<nat>, block: seq<Push>) {
    if call == None then block == [] else exists session :: block == OnePush(call, HeadOp(c), tid, session)
  }

  /** The three parts of a split call as they were pushed. */
  ghost predicate Parts(env: Env, c: CallSpec, send: Settings, recv: Settings, tid: Tid, write: Option<nat>, call: Option<nat>,
                        read: Option<nat>, wb: seq<Push>, cb: seq<Push>, rb: seq<Push>)
  {
    var head := HeadLimit(env, |c.regs|);
    && head < c.size && CallPart(c, tid, call, cb)
    && PartOf(env, send, c.cin, tid, true, c.top + head, c.stack + head, c.size - head, write, wb)
    && PartOf(env, recv, c.cout, tid, false, c.stack + head, c.top + head, c.size - head, read, rb)
  }

  /** The pushed commands of `block` are on the books. */
  ghost predicate OnRecord(book: Book, block: seq<Push>) {
    forall i :: 0 <= i < |block| ==> block[i].cmd.id in book && book[block[i].cmd.id].cmd == block[i].cmd
  }

  lemma RecordPart(book: Book, block: seq<Push>, lo: nat, hi: nat)
    requires OnRecord(book, block) && lo <= hi <= |block|
    ensures OnRecord(book, block[lo..hi])
  {
  }

  lemma PartOnBooks(env: Env, cfg: Settings, wanted: bool, tid: Tid, send: bool, dst: nat, src: nat, size: nat,
                    id: Option<nat>, block: seq<Push>, book: Book)
    requires PartOf(env, cfg, wanted, tid, send, dst, src, size, id, block) && OnRecord(book, block)
    ensures id.Some? ==> id.value in book && if send then book[id.value].cmd.op.Send? else book[id.value].cmd.op.Recv?
  {
    hide Pieces, FragSize;
    if id.Some? { LastOf(block, id); }
  }

  lemma LastOf(block: seq<Push>, id: Option<nat>)
    requires id == LastId(block) && id.Some?
    ensures block != [] && block[|block| - 1].cmd.id == id.value
  {
  }

  lemma CallOnBooks(c: CallSpec, tid: Tid, call: Option<nat>, block: seq<Push>, book: Book)
    requires CallPart(c, tid, call, block) && OnRecord(book, block)
    ensures call.Some? ==> call.value in book && book[call.value].cmd.op.Call?
  {
    if call.Some? { assert block[0].cmd == Command(call.value, HeadOp(c)); }
  }

  /** The parts that were accepted are on the books as what they are. */
  lemma PartsOnBooks(env: Env, c: CallSpec, send: Settings, recv: Settings, tid: Tid, write: Option<nat>,
                     call: Option<nat>, read: Option<nat>, wb: seq<Push>, cb: seq<Push>, rb: seq<Push>, book: Book)
    requires Parts(env, c, send, recv, tid, write, call, read, wb, cb, rb) && OnRecord(book, wb + cb + rb)
    ensures write.Some? ==> write.value in book && book[write.value].cmd.op.Send?
    ensures call.Some? ==> call.value in book && book[call.value].cmd.op.Call?
    ensures read.Some? ==> read.value in book && book[read.value].cmd.op.Recv?
  {
    hide PartOf, OnRecord, CallPart;
    var b, n, m := wb + cb + rb, |wb|, |wb + cb|;
    assert b[0..n] == wb && b[n..m] == cb && b[m..|b|] == rb;
    RecordPart(book, b, 0, n);
    RecordPart(book, b, n, m);
    RecordPart(book, b, m, |b|);
    CallOnBooks(c, tid, call, cb, book);
    var head := HeadLimit(env, |c.regs|);
    PartOnBooks(env, send, c.cin, tid, true, c.top + head, c.stack + head, c.size - head, write, wb, book);
    PartOnBooks(env, recv, c.cout, tid, false, c.stack + head, c.top + head, c.size - head, read, rb, book);
  }

  /** The extra transfers of a split call whose parts were all accepted. */
  lemma PartOps(env: Env, c: CallSpec, cfg: Settings, wanted: bool, tid: Tid, send: bool, dst: nat, src: nat, size: nat,
                id: Option<nat>, block: seq<Push>)
    requires size > 0 && PartOf(env, cfg, wanted, tid, send, dst, src, size, id, block)
    requires FragSize(env, cfg, send, size) > 0 && (wanted ==> id.Some?)
    ensures var ps := Pieces(0, size, FragSize(env, cfg, send, size));
      if !wanted then CmdOps(Cmds(block)) == []
      else
        && Tiles(ps, 0, size) && |block| == |ps|
        && if send then Sends(CmdOps(Cmds(block)), ps, dst, src) else Recvs(CmdOps(Cmds(block)), ps, dst, src)
    ensures Chained(block) && id == LastId(block)
  {
    hide Pieces, Linked, Sends, Recvs, Tiles;
    var ps := Pieces(0, size, FragSize(env, cfg, send, size));
    PiecesTile(0, size, FragSize(env, cfg, send, size));
    if wanted {
      LinkedOps(block, tid, send, dst, src, ps);
      LinkedIsChained(block, tid, send, dst, src, ps);
    }
  }

  lemma BlockCmds(wb: seq<Push>, cb: seq<Push>, rb: seq<Push>, jb: seq<Push>)
    requires |cb| == 1 && |jb| == 1
    ensures var cmds := Cmds(wb + cb + rb + jb);
      && |cmds| == |wb| + |rb| + 2
      && cmds[..|wb|] == Cmds(wb) && cmds[|wb| + 1..|cmds| - 1] == Cmds(rb)
      && cmds[|wb|] == cb[0].cmd && cmds[|cmds| - 1] == jb[0].cmd
    ensures var block := wb + cb + rb + jb;
      block[..|wb|] == wb && block[|wb| + 1..|block| - 1] == rb && block[|wb|] == cb[0] && block[|block| - 1] == jb[0]
  {
  }

  lemma FreshId(env: Env, s: State)
    requires Reachable(env, s)
    ensures s.seqNo !in s.ledger.rem && (s.owner == None <==> s.depth == 0)
  {
    ReachableInv(env, s);
    PendingNew(env, s);
    hide Backward, Queue, Hand, Flight, Wire, Slotted, Books, Fifo, Barrier;
  }

  /** The commands of `block` were pushed, by a thread that holds the lock before and after as it did; the application
  wrote nothing, memories keep their size and pushed commands stay on the books. */
  ghost predicate Appends(s: State, t: State, block: seq<Push>) {
    && t.hist.pushed == s.hist.pushed + block && t.hist.stores == s.hist.stores
    && t.owner == s.owner && t.depth == s.depth && t.pending == s.pending
    && |t.ve| == |s.ve| && |t.host| == |s.host| && OnBooks(s.hist.book, t.hist.book)
    && (forall i :: 0 <= i < |block| ==> block[i].cmd.id in t.hist.book && t.hist.book[block[i].cmd.id].cmd == block[i].cmd)
    && (s.depth > 0 ==> t.session == s.session && forall i :: 0 <= i < |block| ==> block[i].session == s.session)
  }

  ghost predicate OnBooks(a: Book, b: Book) {
    forall id :: id in a ==> id in b && b[id].cmd == a[id].cmd
  }

  lemma NothingAppended(s: State)
    ensures Appends(s, s, [])
  {
  }

  lemma AppendsMore(s: State, t: State, u: State, a: seq<Push>, b: seq<Push>)
    requires Appends(s, t, a) && Appends(t, u, b)
    ensures Appends(s, u, a + b)
  {
  }

  lemma NextIdNew(env: Env, s: State)
    requires Reachable(env, s)
    ensures s.seqNo !in s.hist.book
  {
    hide Reachable, Run;
    ReachableInv(env, s);
    hide Backward, Queue, Hand, Flight, Wire, Slotted, Books, Issued, Sessions, Fifo, Barrier;
  }

  lemma EnqueueAppends(env: Env, s: State, tid: Tid, op: Op)
    requires Reachable(env, s)
    ensures var t := Enqueued(s, tid, op); Appends(s, t, [Push(Command(s.seqNo, op), tid, t.session)])
  {
    hide Reachable;
    NextIdNew(env, s);
  }

  lemma StepSizes(env: Env, s: State, st: Step)
    requires Enabled(env, s, st)
    ensures |Next(env, s, st).ve| == |s.ve| && |Next(env, s, st).host| == |s.host|
  {
    hide OnReply, OnVH, HostEffect, VhEffect, Handle, MsgOf, RefsOk, OpOk, SetLoc;
  }

  lemma PushBooks(env: Env, s: State, tid: Tid)
    requires Inv(env, s) && CanPush(s, tid)
    ensures OnBooks(s.hist.book, DoPush(s, tid).hist.book)
  {
    hide Backward, Queue, Hand, Flight, Wire, Slotted, Books, Issued, Sessions, Fifo, Barrier;
  }

  lemma MovedBooks(book: Book, id: nat, l: Loc)
    ensures OnBooks(book, SetLoc(book, id, l))
  {
  }

  lemma StepBooks(env: Env, s: State, st: Step)
    requires Inv(env, s) && Enabled(env, s, st)
    ensures OnBooks(s.hist.book, Next(env, s, st).hist.book)
  {
    hide Inv, OnReply, OnVH, HostEffect, VhEffect, Handle, MsgOf, RefsOk, OpOk, SetLoc, Insert, Unused;
    match st
    case PushReq(tid) => PushBooks(env, s, tid);
    case Receive => if s.wire[0].req in s.inflight { MovedBooks(s.hist.book, s.inflight[s.wire[0].req].id, Held); }
    case Complete => MovedBooks(s.hist.book, s.phase.cmd.id, Finished(s.phase.out));
    case Pop => MovedBooks(s.hist.book, s.request[0].id, Held);
    case PutBack => MovedBooks(s.hist.book, s.phase.cmd.id, Queued);
    case Submit => MovedBooks(s.hist.book, s.phase.cmd.id, Flying(s.nextReq));
    case _ =>
  }

  lemma {:induction false} RunGrows(env: Env, s: State, steps: seq<Step>)
    requires Reachable(env, s) && Run(env, s, steps).Some?
    ensures var t := Run(env, s, steps).value;
      OnBooks(s.hist.book, t.hist.book) && |t.ve| == |s.ve| && |t.host| == |s.host|
  {
    hide Inv, Next, Enabled, Reachable;
    if steps != [] {
      var front := steps[..|steps| - 1];
      RunGrows(env, s, front);
      ReachableMore(env, s, front);
      ReachableInv(env, Run(env, s, front).value);
      StepBooks(env, Run(env, s, front).value, steps[|steps| - 1]);
      StepSizes(env, Run(env, s, front).value, steps[|steps| - 1]);
    }
  }

  lemma EnqueueRuns(env: Env, s: State, tid: Tid, op: Op)
    requires CanIssue(env, s, tid, op) && MaySubmit(s, tid)
    requires s.seqNo !in s.ledger.rem && (s.owner == None <==> s.depth == 0)
    ensures Run(env, s, EnqueueSteps(tid, op)) == Some(Enqueued(s, tid, op))
  {
    hide Run, OpOk, RefsOk;
    var s1, steps := DoIssue(s, tid, op), [Issue(tid, op)];
    OneStep(env, s, Issue(tid, op));
    if op.Nowait() {
      OneStep(env, s1, Forget(tid));
      steps := Extend(env, s, steps, [Forget(tid)]);
      s1 := DoForget(s1, tid);
    }
    PushRuns(env, s1, tid);
    var last := Extend(env, s, steps, [Lock(tid), PushReq(tid), Unlock(tid)]);
    assert last == EnqueueSteps(tid, op);
    assert s1.pending - {tid} == s.pending;
    assert op.Nowait() ==> s.ledger.rem + {s.seqNo} - {s.seqNo} == s.ledger.rem;
  }

  /** A push in its own holding of the submit lock, nested or not. */
  lemma PushRuns(env: Env, s: State, tid: Tid)
    requires tid in s.pending && (s.pending[tid].cmd.op.Nowait() ==> !s.pending[tid].owed)
    requires CanLock(s, tid) && (s.owner == None <==> s.depth == 0)
    ensures var c := s.pending[tid].cmd; var session := if s.depth == 0 then s.session + 1 else s.session;
      Run(env, s, [Lock(tid), PushReq(tid), Unlock(tid)]) ==
      Some(s.(session := session, request := s.request + [c], pending := s.pending - {tid},
              hist := s.hist.(pushed := s.hist.pushed + [Push(c, tid, session)],
                              book := s.hist.book[c.id := Entry(c, |s.hist.pushed|, Queued)])))
  {
    hide Run;
    OneStep(env, s, Lock(tid));
    TwoSteps(env, DoLock(s, tid), PushReq(tid), Unlock(tid));
    var steps := Extend(env, s, [Lock(tid)], [PushReq(tid), Unlock(tid)]);
    assert steps == [Lock(tid), PushReq(tid), Unlock(tid)];
  }

  // ---- runs that push ----

  /** A run from `s` to `t` that pushes `block` and runs no VH command: those are left to the progress thread. */
  ghost predicate Does(env: Env, s: State, t: State, steps: seq<Step>, block: seq<Push>) {
    Run(env, s, steps) == Some(t) && Appends(s, t, block) && RunVH !in steps
  }

  lemma DoesNothing(env: Env, s: State)
    ensures Does(env, s, s, [], [])
  {
    NothingAppended(s);
  }

  lemma DoesMore(env: Env, s: State, t: State, u: State, x: seq<Step>, y: seq<Step>, a: seq<Push>, b: seq<Push>)
    requires Does(env, s, t, x, a) && Does(env, t, u, y, b)
    ensures Does(env, s, u, x + y, a + b)
  {
    hide Appends, Run;
    RunConcat(env, s, x, y);
    AppendsMore(s, t, u, a, b);
  }

  /** Progress after a submission. */
  lemma DoesThen(env: Env, s: State, t: State, u: State, x: seq<Step>, y: seq<Step>, a: seq<Push>)
    requires Does(env, s, t, x, a) && Does(env, t, u, y, [])
    ensures Does(env, s, u, x + y, a)
  {
    DoesMore(env, s, t, u, x, y, a, []);
    assert a + [] == a;
  }

  lemma DoesFacts(env: Env, s: State, t: State, steps: seq<Step>, block: seq<Push>, tid: Tid)
    requires Does(env, s, t, steps, block)
    ensures |t.ve| == |s.ve| && |t.host| == |s.host|
    ensures Reachable(env, s) ==> Reachable(env, t)
    ensures MaySubmit(s, tid) ==> MaySubmit(t, tid)
    ensures forall i :: 0 <= i < |block| ==>
      block[i].cmd.id in t.hist.book && t.hist.book[block[i].cmd.id].cmd == block[i].cmd
  {
    hide Reachable, Run;
    if Reachable(env, s) { ReachableMore(env, s, steps); }
  }

  /** A run of the progress loop pushes nothing. */
  lemma ProgressDoes(env: Env, s: State, t: State, steps: seq<Step>)
    requires Reachable(env, s) && Run(env, s, steps) == Some(t)
    requires t.hist.pushed == s.hist.pushed && t.hist.stores == s.hist.stores && t.pending == s.pending
    requires t.owner == s.owner && t.depth == s.depth && t.session == s.session && RunVH !in steps
    ensures Does(env, s, t, steps, [])
  {
    hide Reachable, Run;
    RunGrows(env, s, steps);
  }

  lemma EnqueueDoes(env: Env, s: State, tid: Tid, op: Op)
    requires Reachable(env, s) && CanIssue(env, s, tid, op) && MaySubmit(s, tid)
    ensures var t := Enqueued(s, tid, op);
      Does(env, s, t, EnqueueSteps(tid, op), OnePush(Some(s.seqNo), op, tid, t.session))
  {
    hide Reachable, Run, CanIssue, Appends, Enqueued;
    FreshId(env, s);
    EnqueueRuns(env, s, tid, op);
    EnqueueAppends(env, s, tid, op);
  }

  /** Pushes between taking and releasing the submit lock form one session. */
  lemma LockedDoes(env: Env, s: State, t: State, tid: Tid, steps: seq<Step>, block: seq<Push>)
    requires Reachable(env, s) && MaySubmit(s, tid) && Does(env, DoLock(s, tid), t, steps, block)
    ensures CanUnlock(t, tid) && Does(env, s, DoUnlock(t), [Lock(tid)] + steps + [Unlock(tid)], block)
    ensures forall i :: 0 <= i < |block| ==> block[i].tid == tid && block[i].session == t.session
  {
    hide Reachable, Run;
    FreshId(env, s);
    OneStep(env, s, Lock(tid));
    var all := Extend(env, s, [Lock(tid)], steps);
    ReachableMore(env, s, all);
    OneStep(env, t, Unlock(tid));
    all := Extend(env, s, all, [Unlock(tid)]);
    LockedTids(env, s, t, tid, block);
  }

  lemma LockedTids(env: Env, s: State, t: State, tid: Tid, block: seq<Push>)
    requires Reachable(env, t) && Appends(DoLock(s, tid), t, block)
    ensures forall i :: 0 <= i < |block| ==> block[i].tid == tid && block[i].session == t.session
  {
    hide Reachable, Run;
    ReachableInv(env, t);
    hide Tickets, Backward, Queue, Hand, Flight, Wire, Slotted, Books, Issued, Fifo, Barrier;
    forall i | 0 <= i < |block| ensures block[i].tid == tid { assert t.hist.pushed[|s.hist.pushed| + i] == block[i]; }
  }

  // ---- blocks of split calls ----

  /** The block of a split call, complete or not: `nw` transfers to the VE, `nc` calls, transfers back, and the join
  that names what was accepted. */
  ghost predicate CallBlock(env: Env, c: CallSpec, send: Settings, recv: Settings, tid: Tid, block: seq<Push>, nw: nat, nc: nat) {
    var n := |block| - 1;
    && nw + nc <= n && block[n].cmd.op.Join?
    && var j := block[n].cmd.op;
       && j == Join(j.write, j.call, j.read, c.stack, c.size, c.cout, c.outs)
       && Parts(env, c, send, recv, tid, j.write, j.call, j.read, block[..nw], block[nw..nw + nc], block[nw + nc..n])
  }

  /** Every part of the split call was accepted; the join shows it. */
  predicate AllAccepted(c: CallSpec, join: Op)
    requires join.Join?
  {
    join.call.Some? && (c.cin ==> join.write.Some?) && (c.cout ==> join.read.Some?)
  }

  lemma JoinRefs(env: Env, s: State, t: State, steps: seq<Step>, c: CallSpec, send: Settings, recv: Settings, tid: Tid,
                 write: Option<nat>, call: Option<nat>, read: Option<nat>, wb: seq<Push>, cb: seq<Push>, rb: seq<Push>)
    requires Does(env, s, t, steps, wb + cb + rb) && Parts(env, c, send, recv, tid, write, call, read, wb, cb, rb)
    ensures RefsOk(Join(write, call, read, c.stack, c.size, c.cout, c.outs), t.hist.book)
  {
    hide Parts, Run;
    PartsOnBooks(env, c, send, recv, tid, write, call, read, wb, cb, rb, t.hist.book);
  }

  lemma BuildsBlock(env: Env, c: CallSpec, send: Settings, recv: Settings, tid: Tid, write: Option<nat>, call: Option<nat>,
                    read: Option<nat>, id: nat, session: nat, wb: seq<Push>, cb: seq<Push>, rb: seq<Push>)
    requires Parts(env, c, send, recv, tid, write, call, read, wb, cb, rb)
    ensures CallBlock(env, c, send, recv, tid,
      wb + cb + rb + OnePush(Some(id), Join(write, call, read, c.stack, c.size, c.cout, c.outs), tid, session), |wb|, |cb|)
  {
    hide Parts;
    var block := wb + cb + rb + OnePush(Some(id), Join(write, call, read, c.stack, c.size, c.cout, c.outs), tid, session);
    var n := |block| - 1;
    assert block[..|wb|] == wb && block[|wb|..|wb| + |cb|] == cb && block[|wb| + |cb|..n] == rb;
  }

  /** A block whose parts were all accepted is the whole split call. */
  lemma AcceptedIsWhole(env: Env, c: CallSpec, send: Settings, recv: Settings, tid: Tid, block: seq<Push>, nw: nat, nc: nat,
                        ve: nat, host: nat)
    requires CallBlock(env, c, send, recv, tid, block, nw, nc) && SplitCase(env, c, send, recv, ve, host)
    requires AllAccepted(c, block[|block| - 1].cmd.op)
    ensures block != [] && nc == 1 && WholeCall(env, c, send, recv, block)
  {
    hide Sends, Recvs, Tiles, Pieces, PartOf, FragSize, OpOk, Cmds, CmdOps, Chained, LastId;
    var n, head := |block| - 1, HeadLimit(env, |c.regs|);
    var rest := c.size - head;
    var j := block[n].cmd.op;
    var wb, cb, rb, jb := block[..nw], block[nw..nw + nc], block[nw + nc..n], block[n..];
    PartOps(env, c, send, c.cin, tid, true, c.top + head, c.stack + head, rest, j.write, wb);
    PartOps(env, c, recv, c.cout, tid, false, c.stack + head, c.top + head, rest, j.read, rb);
    assert wb + cb + rb + jb == block;
    BlockCmds(wb, cb, rb, jb);
  }

  // ---- calls from their arguments ----

  /** The arguments' buffers and the stack buffer are host memory, the stack pointer is in VE memory, a message has
  room for eight registers and whole words, and the fragment sizes are not zero. */
  ghost predicate CanCall(env: Env, s: State, args: seq<Arg>, c: CallSpec, sp: Word, send: Settings, recv: Settings) {
    && ArgsOk(args) && Off(args, |args|) < 0x4000_0000_0000_0000 && sp <= |s.ve|
    && (forall i :: 0 <= i < |args| && args[i].OnStack? ==> args[i].buff + args[i].len <= |s.host|)
    && c.stack + c.size <= |s.host| && SEND_CALL_CMD_SIZE_WITHOUT_DATA + 64 <= env.maxCmd && env.maxCmd % 8 == 0
    && FragsOk(env, c, send, recv)
  }

  /** The image of the arguments, taken from host memory as it is in `s`, is put into the stack buffer. */
  ghost predicate Stacked(env: Env, s: State, t: State, c: CallSpec, args: seq<Arg>) {
    && ArgsOk(args) && c.top < TWO64
    && var w := HostWrite(c.stack, Image(s.host, args, c.top));
       Run(env, s, [w]) == Some(t) && Enabled(env, s, w) && t == Next(env, s, w)
  }

  /** What callAsync leaves behind when it returns request id `id`: in `s` it took the arguments, in `mid` their image
  is in place, and on the way to `now` it pushed `block`. */
  ghost predicate Called(env: Env, s: State, mid: State, now: State, steps: seq<Step>, c: CallSpec, args: seq<Arg>, sp: Word,
                         send: Settings, recv: Settings, tid: Tid, id: nat, block: seq<Push>, nw: nat, nc: nat)
  {
    && CanCall(env, s, args, c, sp, send, recv) && c == CallFor(c.fn, args, sp, c.stack)
    && Off(args, |args|) < TWO31 && SamePage(sp, c.top)
    && Stacked(env, s, mid, c, args) && Does(env, mid, now, steps, block)
    && if FitsOne(env, c) then exists session :: block == OnePush(Some(id), SimpleOp(c), tid, session)
       else CallBlock(env, c, send, recv, tid, block, nw, nc) && LastId(block) == Some(id)
  }

  lemma PreparedCall(env: Env, s: State, args: seq<Arg>, c: CallSpec, sp: Word, send: Settings, recv: Settings)
    requires CanCall(env, s, args, c, sp, send, recv) && c == CallFor(c.fn, args, sp, c.stack)
    requires Off(args, |args|) < TWO31
    ensures SamePage(sp, c.top) ==> CallInside(env, c, |s.ve|, |s.host|) && c.top + c.size < TWO64
    ensures forall top: Word :: |Image(s.host, args, top)| == c.size
  {
    hide Image, Outs, FragsOk, SamePage, StackTop;
    PageCheck(sp, c.size);
    forall k | 0 <= k < |c.outs|
      ensures c.outs[k].off + c.outs[k].len <= c.size && c.outs[k].buff + c.outs[k].len <= |s.host|
    {
      OutFrom(args, |args|, k);
    }
    forall top: Word ensures |Image(s.host, args, top)| == c.size { ImageLength(s.host, args, top); }
  }

  lemma ImageLength(host: Mem, args: seq<Arg>, top: Word)
    requires ArgsOk(args)
    ensures |Image(host, args, top)| == Round16(Off(args, |args|))
  {
  }

  /** Each copy-out comes from an OUT argument. */
  lemma {:induction false} OutFrom(args: seq<Arg>, n: nat, k: nat)
    requires n <= |args| && k < |Outs(args, n)| && ArgsOk(args)
    ensures exists i :: 0 <= i < n && IsOut(args, i) && Outs(args, n)[k] == CopyOut(args[i].buff, args[i].len, Off(args, i))
    ensures Outs(args, n)[k].off + Outs(args, n)[k].len <= Off(args, |args|)
  {
    if k < |Outs(args, n - 1)| {
      OutFrom(args, n - 1, k);
    } else {
      assert IsOut(args, n - 1);
      DataOrdered(args, n - 1, |args|);
    }
  }
}
