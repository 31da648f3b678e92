/** Runs from start to end: that calls do get through, and what happens where the promises end. */
module Scenarios {
  import opened Memory
  import opened Protocol
  import opened Engine
  import opened EngineInv
  import opened EngineTheorems
  import opened Sequential
  import opened Transfer
  import opened Marshalling
  import opened LargeCall
  import opened Submissions
  import opened Races
  import opened EndToEnd

  // ---- queueing ----

  /** Nothing was taken from the queue yet; ids count the pushes. */
  ghost predicate Fresh(s: State) {
    && s.phase == Idle && s.wire == [] && s.served == 0 && s.inflight == map[]
    && s.owner == None && s.depth == 0 && s.pending == map[] && s.hist.clean && !s.hist.raced && s.ledger.delivered == map[]
    && s.request == Cmds(s.hist.pushed) && s.seqNo == |s.hist.pushed| && s.seqNo !in s.ledger.rem
    && (forall id :: id in s.ledger.rem ==> id < s.seqNo)
    && (forall k :: 0 <= k < |s.hist.pushed| ==>
          k in s.hist.book && s.hist.book[k].cmd == s.hist.pushed[k].cmd && s.hist.pushed[k].cmd.id == k)
  }

  /** Memories keep their size, and neither the program of the application nor its submissions went on. */
  ghost predicate SameProgram(s: State, t: State) {
    && Prog(t.hist) == Prog(s.hist) && |t.ve| == |s.ve| && |t.host| == |s.host| && t.hist.refs == s.hist.refs
    && t.owner == s.owner && t.depth == s.depth && t.pending == s.pending && t.seqNo == s.seqNo
  }

  /** What the next command may refer to: pushed commands nobody referred to yet. */
  ghost predicate MayFollow(env: Env, s: State, op: Op) {
    && OpOk(env, op, |s.ve|, |s.host|) && PartsDiffer(op) && !op.Nowait() && op.Refs() !! s.hist.refs
    && forall r :: r in op.Refs() ==> r < |s.hist.pushed| && !s.hist.pushed[r].cmd.op.Nowait()
  }

  lemma FollowsRefs(env: Env, s: State, op: Op)
    requires Fresh(s) && MayFollow(env, s, op)
    ensures CanIssue(env, s, 0, op)
  {
    hide OpOk;
  }

  lemma StaysFresh(env: Env, s: State, op: Op)
    requires Fresh(s) && MayFollow(env, s, op)
    ensures Fresh(Enqueued(s, 0, op))
  {
    hide OpOk, RefsOk, PartsDiffer;
    var t := Enqueued(s, 0, op);
    assert t.request == Cmds(t.hist.pushed);
  }

  lemma QueueOne(env: Env, s: State, op: Op) returns (t: State)
    requires Fresh(s) && MayFollow(env, s, op)
    ensures Run(env, s, EnqueueSteps(0, op)) == Some(t) && Fresh(t) && t.ve == s.ve && t.host == s.host
    ensures t.hist.pushed == s.hist.pushed + [Push(Command(|s.hist.pushed|, op), 0, t.session)]
    ensures t.hist.stores == s.hist.stores && t.hist.init == s.hist.init && t.hist.refs == s.hist.refs + op.Refs()
    ensures t.nextReq == s.nextReq && RunVH !in EnqueueSteps(0, op)
  {
    FollowsRefs(env, s, op);
    StaysFresh(env, s, op);
    assert RunVH !in EnqueueSteps(0, op);
    hide Run, OpOk, EnqueueSteps, CanIssue, MayFollow;
    EnqueueRuns(env, s, 0, op);
    t := Enqueued(s, 0, op);
  }

  // ---- serving ----

  /** At the top of the progress loop with nothing under way. */
  ghost predicate Waiting(s: State) {
    s.phase == Top(true) && s.wire == [] && s.served == 0 && s.inflight == map[] && s.hist.clean && !s.hist.raced
  }

  const ROUND: seq<Step> := [Pop, Submit] + [Serve(NoFault)] + [Receive, Complete]

  lemma AnsweredWell(env: Env, op: Op, reply: Reply, l: Ledger, id: nat)
    requires GoodReply(env, op, reply)
    ensures !OnReply(l, Command(id, op), reply).bad
  {
  }

  /** One command is on its way to the VE. */
  ghost predicate Posted(env: Env, s: State, cmd: Command, req: nat) {
    && s.phase == Top(true) && s.inflight == map[req := cmd] && s.served == 0 && |s.wire| == 1 && s.hist.clean && !s.hist.raced
    && s.wire[0].req == req && s.wire[0].id == cmd.id
    && !cmd.op.IsVH() && exists h :: s.wire[0].msg == MsgOf(env, cmd.op, h)
  }

  /** One command was served, and its reply is waiting. */
  ghost predicate AtReply(env: Env, s: State, cmd: Command, req: nat) {
    && s.phase == Top(true) && s.inflight == map[req := cmd] && s.served == 1 && |s.wire| == 1 && s.hist.clean && !s.hist.raced
    && s.wire[0].req == req && s.wire[0].id == cmd.id
    && s.wire[0].reply.Some? && GoodReply(env, cmd.op, s.wire[0].reply.value)
  }

  lemma SendOne(env: Env, s: State) returns (t: State)
    requires Waiting(s) && |s.request| > 0 && !s.request[0].op.IsVH()
    ensures Run(env, s, [Pop, Submit]) == Some(t) && Posted(env, t, s.request[0], s.nextReq)
    ensures SameProgram(s, t) && t.request == s.request[1..]
  {
    hide Run, MsgOf, SetLoc;
    TwoSteps(env, s, Pop, Submit);
    t := DoSubmit(env, DoPop(s));
  }

  lemma ServePosted(env: Env, s: State, cmd: Command, req: nat) returns (t: State)
    requires Posted(env, s, cmd, req)
    ensures Run(env, s, [Serve(NoFault)]) == Some(t) && AtReply(env, t, cmd, req)
    ensures SameProgram(s, t) && t.request == s.request
  {
    hide Run, MsgOf, Handle, GoodReply;
    OneStep(env, s, Serve(NoFault));
    t := DoServe(env, s, NoFault);
    var h :| s.wire[0].msg == MsgOf(env, cmd.op, h);
    HandleReplies(env, cmd.op, s.ve, h);
  }

  lemma TakeOne(env: Env, s: State, cmd: Command, req: nat) returns (t: State)
    requires AtReply(env, s, cmd, req)
    ensures Run(env, s, [Receive, Complete]) == Some(t) && Waiting(t) && SameProgram(s, t) && t.request == s.request
  {
    hide Run, OnReply, HostEffect, GoodReply, SetLoc, Insert;
    AnsweredWell(env, cmd.op, s.wire[0].reply.value, s.ledger, cmd.id);
    TwoSteps(env, s, Receive, Complete);
    t := DoComplete(DoReceive(s));
    assert t.inflight == map[];
  }

  /** A VE command is sent, served and answered. */
  lemma OneRound(env: Env, s: State) returns (t: State)
    requires Waiting(s) && |s.request| > 0 && !s.request[0].op.IsVH()
    ensures Run(env, s, ROUND) == Some(t) && Waiting(t) && SameProgram(s, t) && t.request == s.request[1..]
  {
    hide Run, AtReply, Posted;
    var m := SendOne(env, s);
    var n := ServePosted(env, m, s.request[0], s.nextReq);
    t := TakeOne(env, n, s.request[0], s.nextReq);
    var steps := Extend(env, s, [Pop, Submit], [Serve(NoFault)]);
    steps := Extend(env, s, steps, [Receive, Complete]);
  }

  lemma {:induction false} Rounds(env: Env, s: State, n: nat) returns (steps: seq<Step>, t: State)
    requires Waiting(s) && n <= |s.request| && forall i :: 0 <= i < n ==> !s.request[i].op.IsVH()
    ensures Run(env, s, steps) == Some(t) && Waiting(t) && SameProgram(s, t) && t.request == s.request[n..]
    decreases n
  {
    hide Run;
    if n == 0 {
      steps, t := [], s;
      RunNone(env, s);
    } else {
      var m, more;
      m := OneRound(env, s);
      more, t := Rounds(env, m, n - 1);
      steps := Extend(env, s, ROUND, more);
    }
  }

  lemma RunNone(env: Env, s: State)
    ensures Run(env, s, []) == Some(s)
  {
  }

  /** Once the queue holds `n` VE commands and then a VH command, that one can be in hand. */
  lemma ToVH(env: Env, s: State, n: nat) returns (steps: seq<Step>, t: State)
    requires Fresh(s) && n < |s.request| && s.request[n].op.IsVH() && forall i :: 0 <= i < n ==> !s.request[i].op.IsVH()
    ensures Run(env, s, steps) == Some(t) && CanRunVH(t) && t.phase.cmd == s.request[n] && t.request == s.request[n + 1..]
    ensures SameProgram(s, t) && t.hist.clean && !t.hist.raced && t.wire == [] && t.served == 0
  {
    hide Run, Fresh, SetLoc;
    var s1 := s.(phase := Top(true));
    assert Waiting(s1) by { assert Fresh(s); EntersWaiting(s); }
    assert s.phase.Idle? by { EntersWaiting(s); }
    OneStep(env, s, Enter(true));
    var more, s2 := Rounds(env, s1, n);
    steps := Extend(env, s, [Enter(true)], more);
    OneStep(env, s2, Pop);
    steps := Extend(env, s, steps, [Pop]);
    t := DoPop(s2);
  }

  lemma EntersWaiting(s: State)
    requires Fresh(s)
    ensures Waiting(s.(phase := Top(true))) && s.phase.Idle?
  {
  }

  // ---- a large call gets through ----

  /** One INOUT argument of 8 bytes: a stack of 192 bytes, of which 56 fit into a message of 104.  The stack pointer is
  192 bytes and the reserve above address 0. */
  const SP: Word := 524480
  const ARGS: seq<Arg> := [OnStack(192, 8, true, true)]
  const LARGE: CallSpec := CallSpec(1, Regs(ARGS, 0), 0, 192, true, true, 0, [CopyOut(192, 8, 184)])
  const OUT: Op := Send(56, 56, 136, None)
  const BACK: Op := Recv(56, 56, 136, None)
  const JOIN: Op := Join(Some(0), Some(1), Some(2), 0, 192, true, [CopyOut(192, 8, 184)])

  lemma LargeCallOf()
    ensures CallOf(LARGE, ARGS) && |LARGE.regs| == 1
  {
    assert DataSize(ARGS, 0) == 0 && DataSize(ARGS, 1) == 8;
    assert Off(ARGS, 0) == 184 && Off(ARGS, 1) == 192;
    assert Outs(ARGS, 0) == [] && Outs(ARGS, 1) == [CopyOut(192, 8, 184)];
    assert CopiesIn(ARGS, 1) && CopiesOut(ARGS, 1) by { assert ARGS[0].OnStack?; }
  }

  /** The application puts the image into the stack buffer. */
  lemma PutImage(env: Env, s: State, image: seq<Byte>) returns (t: State)
    requires Init(s) && |image| <= |s.host|
    ensures Run(env, s, [HostWrite(0, image)]) == Some(t) && Fresh(t) && Reachable(env, t) && t.hist.pushed == []
    ensures |t.ve| == |s.ve| && |t.host| == |s.host| && Read(t.host, 0, |image|) == image
    ensures t == DoHostWrite(env, s, 0, image) && t.hist.book == map[] && t.hist.refs == {}
  {
    hide Run;
    OneStep(env, s, HostWrite(0, image));
    t := DoHostWrite(env, s, 0, image);
    InitReachable(env, s, [HostWrite(0, image)], t);
  }

  lemma InitReachable(env: Env, s: State, steps: seq<Step>, t: State)
    requires Init(s) && Run(env, s, steps) == Some(t)
    ensures Reachable(env, t)
  {
  }

  lemma QueueIs(s: State)
    requires Fresh(s)
    ensures s.request == Cmds(s.hist.pushed)
  {
  }

  /** What was queued since a fresh state without pushes is what the run appended. */
  lemma QueueDoes(env: Env, s: State, t: State, steps: seq<Step>)
    requires Run(env, s, steps) == Some(t) && Fresh(s) && Fresh(t) && s.hist.pushed == [] && s.hist.book == map[]
    requires t.hist.stores == s.hist.stores && t.ve == s.ve && t.host == s.host && RunVH !in steps
    ensures Does(env, s, t, steps, t.hist.pushed)
  {
    hide Run;
    assert s.hist.pushed + t.hist.pushed == t.hist.pushed;
    forall i | 0 <= i < |t.hist.pushed| ensures t.hist.pushed[i].cmd.id == i { }
  }

  /** The context is right for the call, whatever the capacity of a message. */
  lemma LargeCanCall(env: Env, s: State)
    requires |s.ve| == SP && |s.host| == 200 && env.maxCmd >= 104 && env.maxCmd % 8 == 0 && FragsOk(env, LARGE, DEFAULTS, DEFAULTS)
    ensures CanCall(env, s, ARGS, LARGE, SP, DEFAULTS, DEFAULTS) && LARGE == CallFor(1, ARGS, SP, 0)
    ensures Off(ARGS, 1) == 192 && SamePage(SP, LARGE.top) && OutsApart(ARGS) && Private(LARGE) && |LARGE.regs| == 1
  {
    hide FragsOk;
    LargeCallOf();
    assert Off(ARGS, 1) == 192;
    assert StackTop(SP, 192) == 0;
  }

  /** The image of the arguments as they are in `s` is in place. */
  lemma LargeStacked(env: Env, s: State) returns (mid: State)
    requires Init(s) && |s.ve| == SP && |s.host| == 200
    ensures Stacked(env, s, mid, LARGE, ARGS) && Fresh(mid) && mid.hist.pushed == [] && mid.hist.book == map[] && mid.hist.refs == {}
    ensures |mid.ve| == SP && |mid.host| == 200
  {
    LargeCallOf();
    hide Run, Image;
    mid := PutImage(env, s, Image(s.host, ARGS, 0));
  }

  /** The four requests of the call. */
  ghost predicate LargeBlock(pushed: seq<Push>) {
    && Cmds(pushed) == [Command(0, OUT), Command(1, HeadOp(LARGE)), Command(2, BACK), Command(3, JOIN)]
    && forall i :: 0 <= i < |pushed| ==> pushed[i].tid == 0
  }

  lemma QueueLarge(env: Env, s: State) returns (steps: seq<Step>, t: State)
    requires Fresh(s) && |s.ve| == SP && |s.host| == 200 && s.hist.pushed == [] && s.hist.refs == {}
    ensures Run(env, s, steps) == Some(t) && Fresh(t) && LargeBlock(t.hist.pushed)
    ensures t.ve == s.ve && t.host == s.host && t.hist.stores == s.hist.stores && RunVH !in steps
  {
    hide Run, Fresh, EnqueueSteps;
    LargeCallOf();
    var s1 := QueueOne(env, s, OUT);
    var s2 := QueueOne(env, s1, HeadOp(LARGE));
    steps := Extend(env, s, EnqueueSteps(0, OUT), EnqueueSteps(0, HeadOp(LARGE)));
    var s3 := QueueOne(env, s2, BACK);
    steps := Extend(env, s, steps, EnqueueSteps(0, BACK));
    t := QueueOne(env, s3, JOIN);
    steps := Extend(env, s, steps, EnqueueSteps(0, JOIN));
  }

  lemma OnePiece(env: Env)
    requires env.maxCmd == 104
    ensures HeadLimit(env, 1) == 56
    ensures FragSize(env, DEFAULTS, true, 136) == 136 && FragSize(env, DEFAULTS, false, 136) == 136
    ensures Pieces(0, 136, 136) == [Piece(0, 136)]
  {
    assert Pieces(136, 0, 136) == [];
  }

  lemma LargeCallBlock(env: Env, pushed: seq<Push>)
    requires env.maxCmd == 104 && LargeBlock(pushed)
    ensures CallBlock(env, LARGE, DEFAULTS, DEFAULTS, 0, pushed, 1, 1) && LastId(pushed) == Some(3)
    ensures |pushed| == 4 && pushed[3].cmd.op == JOIN && AllAccepted(LARGE, JOIN)
    ensures !FitsOne(env, LARGE) && FragsOk(env, LARGE, DEFAULTS, DEFAULTS)
  {
    hide Pieces, FragSize;
    LargeCallOf();
    OnePiece(env);
    var cmds := Cmds(pushed);
    assert cmds[0] == pushed[0].cmd && cmds[1] == pushed[1].cmd && cmds[2] == pushed[2].cmd && cmds[3] == pushed[3].cmd;
    assert pushed[..1][..0] == [] && pushed[2..3][..0] == [];
    assert pushed[1..2] == OnePush(Some(1), HeadOp(LARGE), 0, pushed[1].session);
  }

  /** callAsync for the large call, from the start of a context. */
  lemma LargeCalled(env: Env, s: State) returns (mid: State, steps: seq<Step>, now: State)
    requires Init(s) && |s.ve| == SP && |s.host| == 200 && env.maxCmd == 104
    ensures Called(env, s, mid, now, steps, LARGE, ARGS, SP, DEFAULTS, DEFAULTS, 0, 3, now.hist.pushed, 1, 1)
    ensures Fresh(now) && LargeBlock(now.hist.pushed)
  {
    hide Run, Stacked, Fresh, CallBlock, CanCall, Does, LargeBlock;
    mid := LargeStacked(env, s);
    steps, now := QueueLarge(env, mid);
    QueueDoes(env, mid, now, steps);
    LargeCallBlock(env, now.hist.pushed);
    LargeCanCall(env, s);
  }

  /** All that LargeCallAsync asks for happens: from the start of a context callAsync puts the image in place and submits
  the call, its parts go to the VE and back, and its join is about to run; and so the buffer gets the result. */
  lemma SplitCallHappens(env: Env, s: State) returns (mid: State, steps: seq<Step>, now: State, more: seq<Step>, t: State)
    requires Init(s) && |s.ve| == SP && |s.host| == 200 && env.maxCmd == 104
    ensures Called(env, s, mid, now, steps, LARGE, ARGS, SP, DEFAULTS, DEFAULTS, 0, 3, now.hist.pushed, 1, 1)
    ensures !FitsOne(env, LARGE) && |now.hist.pushed| == 4 && now.hist.pushed[3].cmd.op == JOIN && AllAccepted(LARGE, JOIN)
    ensures Run(env, now, more) == Some(t) && t.hist.clean && !t.hist.raced && CanRunVH(t) && t.phase.cmd.id == 3
    ensures JoinDelivers(env, t, LARGE, ARGS, s.host, 0)
    ensures Read(DoRunVH(env, t).host, 192, 8) == Read(CallRun(env, t, LARGE, ARGS, s.host, 0).0, 184, 8)
  {
    hide Run, Called, CanRunVH, Fresh, CallBlock, Reachable, DoRunVH, CallRun, CanCall;
    mid, steps, now := LargeCalled(env, s);
    LargeCallBlock(env, now.hist.pushed);
    LargeCanCall(env, s);
    QueueIs(now);
    more, t := ToVH(env, now, 3);
    StartRests(env, s);
    LargeCallAsync(env, s, mid, now, steps, more, t, LARGE, ARGS, SP, DEFAULTS, DEFAULTS, 0, 3, now.hist.pushed, 1, 1);
    LargeOut(env, t, s.host);
  }

  lemma LargeOut(env: Env, t: State, h: Mem)
    requires |t.hist.pushed| == 4 && CanRunVH(t)
    requires OutsFilled(CallRun(env, t, LARGE, ARGS, h, 0).0, DoRunVH(env, t).host, LARGE, ARGS)
    ensures Read(DoRunVH(env, t).host, 192, 8) == Read(CallRun(env, t, LARGE, ARGS, h, 0).0, 184, 8)
  {
    hide DoRunVH, CallRun, Read;
    assert IsOut(ARGS, 0);
  }

  // ---- a small call gets through ----

  lemma SmallFits(env: Env)
    requires env.maxCmd == 240
    ensures FitsOne(env, LARGE) && FragsOk(env, LARGE, DEFAULTS, DEFAULTS)
  {
    LargeCallOf();
  }

  lemma SmallFollows(env: Env, s: State)
    requires |s.ve| == SP && |s.host| == 200
    ensures MayFollow(env, s, SimpleOp(LARGE))
  {
    LargeCallOf();
  }

  /** callAsync for the same call where a message has room for the whole stack. */
  lemma SmallCalled(env: Env, s: State) returns (mid: State, steps: seq<Step>, now: State)
    requires Init(s) && |s.ve| == SP && |s.host| == 200 && env.maxCmd == 240
    ensures Called(env, s, mid, now, steps, LARGE, ARGS, SP, DEFAULTS, DEFAULTS, 0, 0, now.hist.pushed, 0, 0)
    ensures Fresh(now) && |now.hist.pushed| == 1 && now.hist.pushed[0].cmd == Command(0, SimpleOp(LARGE))
  {
    hide Run, Stacked, Fresh, CanCall, Does, MayFollow, FragsOk, EnqueueSteps;
    SmallFits(env);
    LargeCanCall(env, s);
    mid := LargeStacked(env, s);
    SmallFollows(env, mid);
    now := QueueOne(env, mid, SimpleOp(LARGE));
    steps := EnqueueSteps(0, SimpleOp(LARGE));
    QueueDoes(env, mid, now, steps);
    assert now.hist.pushed == OnePush(Some(0), SimpleOp(LARGE), 0, now.session);
  }

  /** The first command in the queue is sent, and then served. */
  lemma SendAndServe(env: Env, s: State) returns (sent: seq<Step>, m: State, t: State)
    requires Fresh(s) && |s.request| == 1 && !s.request[0].op.IsVH()
    ensures Run(env, s, sent) == Some(m) && m.served == 0 && |m.wire| == 1 && m.phase.Top? && m.request == []
    ensures Run(env, s, sent + [Serve(NoFault)]) == Some(t) && CanReceive(t) && t.wire[0].id == s.request[0].id
    ensures SameProgram(s, m) && SameProgram(s, t) && m.hist.clean && !m.hist.raced && t.hist.clean && !t.hist.raced
  {
    hide Run, Fresh, Posted, AtReply;
    EntersWaiting(s);
    OneStep(env, s, Enter(true));
    var s1 := s.(phase := Top(true));
    m := SendOne(env, s1);
    sent := Extend(env, s, [Enter(true)], [Pop, Submit]);
    t := ServePosted(env, m, s.request[0], s1.nextReq);
    WireOf(env, m, s.request[0], s1.nextReq);
    ReplyOf(env, t, s.request[0], s1.nextReq);
    var more := Extend(env, s, sent, [Serve(NoFault)]);
  }

  /** All that KernelReceives and SmallCallAsync ask for happens: the call is on its way to the VE in `m`, and its reply
  is there in `t`. */
  lemma SimpleCallHappens(env: Env, s: State)
    returns (mid: State, steps: seq<Step>, now: State, sent: seq<Step>, m: State, t: State)
    requires Init(s) && |s.ve| == SP && |s.host| == 200 && env.maxCmd == 240
    ensures Called(env, s, mid, now, steps, LARGE, ARGS, SP, DEFAULTS, DEFAULTS, 0, 0, now.hist.pushed, 0, 0) && FitsOne(env, LARGE)
    ensures UnderWay(env, mid, steps + sent, m, LARGE, ARGS, s.host, 0, 1)
    ensures m.served < |m.wire| && Begun(m) - |m.wire| + m.served == 0
    ensures |m.hist.pushed| == 1 && m.hist.pushed[0].cmd.op == SimpleOp(LARGE)
    ensures Run(env, now, sent + [Serve(NoFault)]) == Some(t) && t.hist.clean && !t.hist.raced && CanReceive(t) && t.wire[0].id == 0
    ensures ReceiptDelivers(env, t, LARGE, ARGS, s.host, 0)
  {
    hide Run, Called, Fresh, Reachable, ReceiptDelivers, UnderWay, CanCall, CallSubmitted, FragsOk;
    SmallFits(env);
    LargeCanCall(env, s);
    mid, steps, now := SmallCalled(env, s);
    QueueIs(now);
    sent, m, t := SendAndServe(env, now);
    StartRests(env, s);
    CalledIsSubmitted(env, s, mid, now, steps, LARGE, ARGS, SP, DEFAULTS, DEFAULTS, 0, 0, now.hist.pushed, 0, 0);
    SubmittedIsUnderWay(env, s, mid, now, steps, sent, m, LARGE, ARGS, now.hist.pushed);
    SmallCallAsync(env, s, mid, now, steps, sent + [Serve(NoFault)], t, LARGE, ARGS, SP, DEFAULTS, DEFAULTS, 0, 0,
                   now.hist.pushed, 0, 0);
  }

  lemma WireOf(env: Env, s: State, cmd: Command, req: nat)
    requires Posted(env, s, cmd, req)
    ensures |s.wire| == 1 && s.served == 0 && s.phase == Top(true) && s.hist.clean && !s.hist.raced
  {
  }

  lemma ReplyOf(env: Env, s: State, cmd: Command, req: nat)
    requires AtReply(env, s, cmd, req)
    ensures CanReceive(s) && s.wire[0].id == cmd.id && s.hist.clean && !s.hist.raced
  {
  }

  // ---- calls of which a part was turned down ----

  /** 8 bytes of the stack come with the reply, the other 8 would have to be read; they are the OUT argument. */
  const HALF: CallSpec := CallSpec(1, [], 0, 16, false, true, 0, [CopyOut(16, 8, 8)])
  const NOREAD: Op := Join(None, Some(0), None, 0, 16, true, [CopyOut(16, 8, 8)])
  const NOTHING: Op := Join(None, None, None, 0, 16, true, [CopyOut(16, 8, 8)])

  /** The last VH command runs and the loop ends. */
  lemma FinishVH(env: Env, s: State) returns (t: State)
    requires CanRunVH(s) && s.hist.clean && !s.hist.raced && s.request == []
    ensures Run(env, s, [RunVH, Complete] + [Leave]) == Some(t) && SameProgram(s, t) && t.hist.clean && !t.hist.raced
    ensures t.request == [] && t.inflight == map[] && t.phase.Idle?
  {
    hide Run, OnVH, VhEffect, Insert, SetLoc;
    TwoSteps(env, s, RunVH, Complete);
    var s1 := DoComplete(DoRunVH(env, s));
    OneStep(env, s1, Leave);
    t := s1.(phase := Idle);
    var steps := Extend(env, s, [RunVH, Complete], [Leave]);
  }

  /** A queue of `n` VE commands and a VH command is worked off. */
  lemma WorkedOff(env: Env, s: State, n: nat) returns (steps: seq<Step>, t: State)
    requires Fresh(s) && n + 1 == |s.request| && s.request[n].op.IsVH() && forall i :: 0 <= i < n ==> !s.request[i].op.IsVH()
    ensures Run(env, s, steps) == Some(t) && SameProgram(s, t) && t.hist.clean && !t.hist.raced
    ensures t.request == [] && t.inflight == map[] && t.phase.Idle?
  {
    hide Run, Fresh, CanRunVH;
    var m;
    steps, m := ToVH(env, s, n);
    t := FinishVH(env, m);
    steps := Extend(env, s, steps, [RunVH, Complete] + [Leave]);
  }

  lemma RestIsOnePiece(env: Env)
    requires env.maxCmd == 48
    ensures FragSize(env, DEFAULTS, false, 8) == 8 && |Pieces(0, 8, 8)| == 1 && HeadLimit(env, 0) == 8
  {
    assert Pieces(8, 0, 8) == [];
  }

  lemma HalfBlock(env: Env, pushed: seq<Push>)
    requires env.maxCmd == 48 && |pushed| == 2 && pushed[0].tid == 0
    requires pushed[0].cmd == Command(0, HeadOp(HALF)) && pushed[1].cmd == Command(1, NOREAD)
    ensures CallBlock(env, HALF, DEFAULTS, DEFAULTS, 0, pushed, 0, 1)
  {
    RestIsOnePiece(env);
    hide FragSize, Pieces;
    assert pushed[0..1] == OnePush(Some(0), HeadOp(HALF), 0, pushed[0].session);
    assert pushed[..0] == [] && pushed[1..1] == [];
  }

  lemma EmptyBlock(env: Env, pushed: seq<Push>)
    requires env.maxCmd == 48 && |pushed| == 1 && pushed[0].cmd == Command(0, NOTHING)
    ensures CallBlock(env, HALF, DEFAULTS, DEFAULTS, 0, pushed, 0, 0)
  {
    RestIsOnePiece(env);
    hide FragSize, Pieces;
    assert pushed[..0] == [] && pushed[0..0] == [];
  }

  lemma HalfCopiesOld(env: Env, w: World)
    requires env.maxCmd == 48 && |w.ve| == 16 && |w.host| == 24
    ensures Read(ExecSeq(env, w, [HeadOp(HALF), NOREAD]).host, 16, 8) == Read(w.host, 8, 8)
  {
    hide SeqStep, Read, ExecSeq, HeadOp;
    var w1 := SeqStep(env, w, HeadOp(HALF));
    ExecNone(env, w);
    ExecSnoc(env, w, [], HeadOp(HALF));
    ExecSnoc(env, w, [HeadOp(HALF)], NOREAD);
    assert [] + [HeadOp(HALF)] == [HeadOp(HALF)] && [HeadOp(HALF)] + [NOREAD] == [HeadOp(HALF), NOREAD];
    HeadOnly(env, w);
    JoinCopies(env, w1);
  }

  /** The reply to the call brings 8 bytes and no more. */
  lemma HeadOnly(env: Env, w: World)
    requires env.maxCmd == 48 && |w.ve| == 16 && |w.host| == 24
    ensures var h := SeqStep(env, w, HeadOp(HALF)).host; |h| == 24 && Read(h, 8, 8) == Read(w.host, 8, 8)
  {
    hide Kernel;
  }

  lemma JoinCopies(env: Env, w: World)
    requires |w.host| == 24
    ensures Read(SeqStep(env, w, NOREAD).host, 16, 8) == Read(w.host, 8, 8)
  {
    var outs := [CopyOut(16, 8, 8)];
    assert outs[..0] == [];
    assert ApplyOuts(w.host, Read(w.host, 0, 16), outs) == Write(w.host, 16, Read(Read(w.host, 0, 16), 8, 8));
  }

  /** doCallAsync queues its join even if the read of the rest was not accepted.  Such a join reports OK, and the OUT
  buffer gets what was in the host's stack buffer before, whatever the kernel wrote.  (JoinStandsForAll gives the
  exact condition.) */
  lemma JoinWithoutRead(env: Env, s: State) returns (steps: seq<Step>, t: State)
    requires Init(s) && env.maxCmd == 48 && |s.ve| == 16 && |s.host| == 24
    ensures Run(env, s, steps) == Some(t) && CallBlock(env, HALF, DEFAULTS, DEFAULTS, 0, t.hist.pushed, 0, 1)
    ensures EndedOk(t.hist.book, 1) && t.hist.pushed[1].cmd == Command(1, NOREAD) && Read(t.host, 16, 8) == Read(s.host, 8, 8)
  {
    hide Run, Reachable, CallBlock, After, ExecSeq, Read;
    var s1, more;
    s1, steps := QueueHalf(env, s);
    QueueIs(s1);
    more, t := WorkedOff(env, s1, 1);
    steps := Extend(env, s, steps, more);
    HalfBlock(env, t.hist.pushed);
    InitReachable(env, s, steps, t);
    AsyncIsSequential(env, t);
    AfterIsExec(env, Prog(t.hist), 2);
    assert t.hist.pushed[..2] == t.hist.pushed && CmdOps(Cmds(t.hist.pushed)) == [HeadOp(HALF), NOREAD];
    HalfCopiesOld(env, World(s.ve, s.host));
    assert t.hist.pushed[1].cmd.id == 1;
  }

  lemma QueueHalf(env: Env, s: State) returns (t: State, steps: seq<Step>)
    requires Init(s) && env.maxCmd == 48 && |s.ve| == 16 && |s.host| == 24
    ensures Run(env, s, steps) == Some(t) && Fresh(t) && |t.hist.pushed| == 2 && t.hist.pushed[0].tid == 0
    ensures t.hist.pushed[0].cmd == Command(0, HeadOp(HALF)) && t.hist.pushed[1].cmd == Command(1, NOREAD)
    ensures t.ve == s.ve && t.host == s.host && t.hist.stores == [] && t.hist.init == World(s.ve, s.host)
  {
    hide Run, EnqueueSteps;
    var s1 := QueueOne(env, s, HeadOp(HALF));
    t := QueueOne(env, s1, NOREAD);
    steps := Extend(env, s, EnqueueSteps(0, HeadOp(HALF)), EnqueueSteps(0, NOREAD));
  }

  /** Nor does it look at whether the call itself was accepted: a join that stands for nothing reports OK. */
  lemma JoinWithoutCall(env: Env, s: State) returns (steps: seq<Step>, t: State)
    requires Init(s) && env.maxCmd == 48 && |s.host| == 24
    ensures Run(env, s, steps) == Some(t) && CallBlock(env, HALF, DEFAULTS, DEFAULTS, 0, t.hist.pushed, 0, 0)
    ensures EndedOk(t.hist.book, 0) && |t.hist.pushed| == 1 && t.hist.pushed[0].cmd == Command(0, NOTHING)
  {
    hide Run, Reachable, CallBlock, After, EnqueueSteps;
    var more;
    var s1 := QueueOne(env, s, NOTHING);
    QueueIs(s1);
    more, t := WorkedOff(env, s1, 0);
    steps := Extend(env, s, EnqueueSteps(0, NOTHING), more);
    EmptyBlock(env, t.hist.pushed);
    InitReachable(env, s, steps, t);
    AsyncIsSequential(env, t);
    assert t.hist.pushed[0].cmd.id == 0;
  }

  // ---- requests that race ----

  const GET: Op := Recv(0, 0, 1, None)
  const PUT: Op := Send(1, 0, 1, None)

  /** Both requests are on the wire, unserved. */
  ghost predicate BothSent(s: State) {
    && s.wire == [Slot(0, 0, MRecv(0, 0, 1), None), Slot(1, 1, MSend(1, [0]), None)] && s.served == 0
    && s.inflight == map[0 := Command(0, GET), 1 := Command(1, PUT)] && s.request == [] && s.phase == Top(true)
    && s.ve == [7, 0] && s.host == [0] && s.hist.clean && Cmds(s.hist.pushed) == [Command(0, GET), Command(1, PUT)]
    && s.hist.stores == [] && s.hist.init == World([7, 0], [0]) && s.hist.raced
  }

  lemma QueueBoth(env: Env, s: State) returns (steps: seq<Step>, t: State)
    requires Init(s) && s.ve == [7, 0] && s.host == [0]
    ensures Run(env, s, steps) == Some(t) && Fresh(t) && Cmds(t.hist.pushed) == [Command(0, GET), Command(1, PUT)]
    ensures t.ve == s.ve && t.host == s.host && t.hist.stores == [] && t.hist.init == World([7, 0], [0]) && t.nextReq == 0
  {
    hide Run, EnqueueSteps;
    var s1 := QueueOne(env, s, GET);
    t := QueueOne(env, s1, PUT);
    steps := Extend(env, s, EnqueueSteps(0, GET), EnqueueSteps(0, PUT));
  }

  lemma SendNext(env: Env, s: State) returns (t: State)
    requires s.phase.Top? && |s.request| > 0 && !s.request[0].op.IsVH()
    ensures Run(env, s, [Pop, Submit]) == Some(t) && t.phase == s.phase && t.request == s.request[1..] && t.served == s.served
    ensures t.wire == s.wire + [Slot(s.nextReq, s.request[0].id, MsgOf(env, s.request[0].op, s.host), None)]
    ensures t.inflight == s.inflight[s.nextReq := s.request[0]] && t.nextReq == s.nextReq + 1 && t.ve == s.ve && t.host == s.host
    ensures Prog(t.hist) == Prog(s.hist) && t.hist.clean == s.hist.clean
    ensures t.hist.raced == (s.hist.raced || !InTheClear(env, s.inflight, s.request[0].op))
  {
    hide Run, MsgOf, SetLoc, InTheClear;
    TwoSteps(env, s, Pop, Submit);
    t := DoSubmit(env, DoPop(s));
  }

  lemma SendBoth(env: Env, s: State) returns (steps: seq<Step>, t: State)
    requires Init(s) && s.ve == [7, 0] && s.host == [0]
    ensures Run(env, s, steps) == Some(t) && BothSent(t)
  {
    hide Run;
    var s1;
    steps, s1 := QueueBoth(env, s);
    OneStep(env, s1, Enter(true));
    steps := Extend(env, s, steps, [Enter(true)]);
    var s2 := s1.(phase := Top(true));
    var s3 := SendNext(env, s2);
    steps := Extend(env, s, steps, [Pop, Submit]);
    assert s3.inflight[0].op == GET && Apart(Writes(env, GET)[0], Reads(env, PUT)[0]) == false;
    t := SendNext(env, s3);
    steps := Extend(env, s, steps, [Pop, Submit]);
    assert Read([0], 0, 1) == [0];
  }

  /** The VE served both, in order: the byte it got is the old one. */
  lemma ServeBoth(env: Env, s: State) returns (t: State)
    requires BothSent(s)
    ensures Run(env, s, [Serve(NoFault), Serve(NoFault)]) == Some(t)
    ensures t == s.(wire := t.wire, served := 2, hist := t.hist) && t.hist == s.hist
    ensures t.wire == [Slot(0, 0, MRecv(0, 0, 1), Some(Data(0, [7]))), Slot(1, 1, MSend(1, [0]), Some(Ack))]
  {
    hide Run;
    TwoSteps(env, s, Serve(NoFault), Serve(NoFault));
    assert Read([7, 0], 0, 1) == [7] && Write([7, 0], 1, [0]) == [7, 0];
    t := DoServe(env, DoServe(env, s, NoFault), NoFault);
  }

  /** A reply whose command is in flight is received without trouble. */
  lemma ReceiveOne(env: Env, s: State) returns (t: State)
    requires CanReceive(s) && s.wire[0].req in s.inflight && s.hist.clean
    requires GoodReply(env, s.inflight[s.wire[0].req].op, s.wire[0].reply.value)
    ensures Run(env, s, [Receive, Complete]) == Some(t)
    ensures t.wire == s.wire[1..] && t.served == s.served - 1 && t.inflight == s.inflight - {s.wire[0].req}
    ensures t.request == s.request && t.phase == s.phase && t.ve == s.ve && Prog(t.hist) == Prog(s.hist) && t.hist.clean
    ensures t.hist.raced == s.hist.raced
  {
    hide Run, OnReply, HostEffect, GoodReply, SetLoc, Insert;
    var cmd := s.inflight[s.wire[0].req];
    AnsweredWell(env, cmd.op, s.wire[0].reply.value, s.ledger, cmd.id);
    TwoSteps(env, s, Receive, Complete);
    t := DoComplete(DoReceive(s));
  }

  /** Both requests are answered and done with. */
  lemma AnswerBoth(env: Env, s: State) returns (steps: seq<Step>, t: State)
    requires BothSent(s)
    ensures Run(env, s, steps) == Some(t) && Prog(t.hist) == Prog(s.hist) && t.hist.clean && t.hist.raced
    ensures t.request == [] && t.inflight == map[] && t.phase.Idle? && t.ve == [7, 0]
  {
    hide Run;
    var s1 := ServeBoth(env, s);
    var s2 := ReceiveOne(env, s1);
    var s3 := ReceiveOne(env, s2);
    OneStep(env, s3, Leave);
    steps := Extend(env, s, [Serve(NoFault), Serve(NoFault)], [Receive, Complete]);
    steps := Extend(env, s, steps, [Receive, Complete]);
    steps := Extend(env, s, steps, [Leave]);
    t := s3.(phase := Idle);
  }

  lemma OneAfterTheOther(env: Env)
    ensures ExecSeq(env, World([7, 0], [0]), [GET, PUT]).ve == [7, 7]
  {
    assert [GET, PUT][..1] == [GET] && [GET][..0] == [];
    assert ExecSeq(env, World([7, 0], [0]), [GET]) == World([7, 0], [7]);
  }

  /** In a run that raced the requests need not act one after the other.  A byte is read from VE address 0 into
  host address 0 and sent on from there to VE address 1; both requests are sent before the first reply is in, and
  the old byte arrives. */
  lemma HazardMatters(env: Env, s: State) returns (steps: seq<Step>, t: State)
    requires Init(s) && s.ve == [7, 0] && s.host == [0]
    ensures Run(env, s, steps) == Some(t) && t.hist.clean && t.hist.raced && CmdOps(Cmds(t.hist.pushed)) == [GET, PUT]
    ensures t.request == [] && t.inflight == map[] && t.phase.Idle?
    ensures t.ve != After(env, Prog(t.hist), 2).ve
  {
    hide Run, ExecSeq, After;
    var s1, more;
    steps, s1 := SendBoth(env, s);
    more, t := AnswerBoth(env, s1);
    steps := Extend(env, s, steps, more);
    OneAfterTheOther(env);
    AfterIsExec(env, Prog(t.hist), 2);
    assert t.hist.pushed[..2] == t.hist.pushed;
    assert CmdOps(Cmds(t.hist.pushed)) == [GET, PUT];
  }

  // ---- a buffer is used again ----

  /** Nothing is under way and nobody is submitting. */
  ghost predicate Resting(s: State) {
    && s.phase == Idle && s.wire == [] && s.served == 0 && s.inflight == map[] && s.request == []
    && s.owner == None && s.pending == map[] && s.hist.clean && !s.hist.raced && s.hist.refs == {}
  }

  lemma EnqueuedWaits(s: State, op: Op)
    requires Resting(s) && op.Refs() == {}
    ensures var t := Enqueued(s, 0, op);
      Waiting(t.(phase := Top(true))) && t.phase.Idle? && t.request == [Command(s.seqNo, op)] && t.hist.refs == {}
  {
  }

  lemma RoundRests(env: Env, s: State, id: nat)
    requires Waiting(s) && s.request == [] && s.owner == None && s.pending == map[] && s.hist.refs == {}
    ensures Run(env, s, [Leave, Collect(0, id)]) == Some(DoCollect(s.(phase := Idle), 0, id))
    ensures Resting(DoCollect(s.(phase := Idle), 0, id)) && SameProgram(s, DoCollect(s.(phase := Idle), 0, id))
  {
    hide Run, Peek;
    TwoSteps(env, s, Leave, Collect(0, id));
  }

  /** A request without predecessor is submitted, served, answered, and its result collected. */
  lemma Exchange(env: Env, s: State, op: Op) returns (steps: seq<Step>, t: State)
    requires Reachable(env, s) && Resting(s) && !op.IsVH() && !op.Nowait() && op.Refs() == {} && OpOk(env, op, |s.ve|, |s.host|)
    ensures Run(env, s, steps) == Some(t) && Resting(t) && Reachable(env, t) && |t.ve| == |s.ve| && |t.host| == |s.host|
    ensures Cmds(t.hist.pushed) == Cmds(s.hist.pushed) + [Command(s.seqNo, op)]
    ensures t.hist.stores == s.hist.stores && t.hist.init == s.hist.init && t.seqNo == s.seqNo + 1
  {
    hide Run, Reachable, OpOk, EnqueueSteps;
    FreshId(env, s);
    EnqueueRuns(env, s, 0, op);
    EnqueuedWaits(s, op);
    var s1 := Enqueued(s, 0, op);
    OneStep(env, s1, Enter(true));
    steps := Extend(env, s, EnqueueSteps(0, op), [Enter(true)]);
    var s2 := OneRound(env, s1.(phase := Top(true)));
    steps := Extend(env, s, steps, ROUND);
    RoundRests(env, s2, s.seqNo);
    t := DoCollect(s2.(phase := Idle), 0, s.seqNo);
    steps := Extend(env, s, steps, [Leave, Collect(0, s.seqNo)]);
    ReachableMore(env, s, steps);
  }

  /** When nothing is under way anything may be pushed. */
  lemma RestingIsSafe(env: Env, s: State, op: Op)
    requires Reachable(env, s) && Resting(s)
    ensures SafeToPush(env, s.hist, op)
  {
    hide Reachable, Run, Inv, AllApart, Reads, Writes, AllVE;
    ReachableInv(env, s);
    Drained(env, s);
    forall id | id in s.hist.book ensures s.hist.book[id].loc.Finished? {
      BookPush(env, s, id);
      BookId(env, s, id);
    }
  }

  lemma BookId(env: Env, s: State, id: nat)
    requires Inv(env, s) && id in s.hist.book
    ensures s.hist.book[id].cmd.id == id
  {
    hide Backward, Queue, Hand, Flight, Wire, Slotted, Books, Issued, Sessions, Fifo, Barrier;
  }

  lemma GetThenPut(env: Env, pushed: seq<Push>)
    requires Cmds(pushed) == [Command(0, GET), Command(1, PUT)]
    ensures !HazardFree(env, pushed)
  {
    assert Cmds(pushed)[0] == pushed[0].cmd && Cmds(pushed)[1] == pushed[1].cmd;
    assert AllVE(pushed, 0, 2);
    assert !Apart(Writes(env, GET)[0], Reads(env, PUT)[0]);
  }

  lemma StartRests(env: Env, s: State)
    requires Init(s)
    ensures Reachable(env, s) && Resting(s)
  {
    RunNone(env, s);
    InitReachable(env, s, [], s);
  }

  lemma NewByteArrives(env: Env, t: State)
    requires Reachable(env, t) && Resting(t) && t.hist.init == World([7, 0], [0]) && t.hist.stores == []
    requires Cmds(t.hist.pushed) == [Command(0, GET), Command(1, PUT)]
    ensures World(t.ve, t.host) == After(env, Prog(t.hist), 2) && t.ve == [7, 7]
  {
    hide Reachable, Run, After, ExecSeq;
    AsyncIsSequential(env, t);
    OneAfterTheOther(env);
    AfterIsExec(env, Prog(t.hist), 2);
    assert t.hist.pushed[..2] == t.hist.pushed && CmdOps(Cmds(t.hist.pushed)) == [GET, PUT];
  }

  /** The same two requests as in HazardMatters, but the first is waited for before the second is submitted: that push is
  safe, the run does not race although the program text has a hazard, and the new byte arrives. */
  lemma ReuseAfterWait(env: Env, s: State) returns (first: seq<Step>, m: State, second: seq<Step>, t: State)
    requires Init(s) && s.ve == [7, 0] && s.host == [0]
    ensures Run(env, s, first) == Some(m) && SafeToPush(env, m.hist, PUT) && Run(env, m, second) == Some(t)
    ensures Cmds(t.hist.pushed) == [Command(0, GET), Command(1, PUT)] && !HazardFree(env, t.hist.pushed)
    ensures t.hist.clean && !t.hist.raced && World(t.ve, t.host) == After(env, Prog(t.hist), 2) && t.ve == [7, 7]
  {
    hide Run, Reachable, HazardFree, After, SafeToPush;
    StartRests(env, s);
    first, m := Exchange(env, s, GET);
    RestingIsSafe(env, m, PUT);
    second, t := Exchange(env, m, PUT);
    GetThenPut(env, t.hist.pushed);
    NewByteArrives(env, t);
  }
}
