/** The request engine of one context as a state machine (Context.cpp, Context.hpp, Command.cpp,
Command.hpp, AsyncTransfer.cpp).

Any number of threads submit and collect; one thread at a time runs the progress loop; the VE serves
messages in the order they were sent.  Every action made under a mutex is one step, and a run is
any interleaving of steps. */
module Engine {
  import opened Memory
  import opened Protocol

  type Tid = nat

  datatype Result = Result(status: Status, retval: Word)

  /** How a command came to its result. */
  datatype Fate = Answered | Raised | Refused | Cancelled | Ran

  datatype Outcome = Outcome(res: Result, fate: Fate)

  /** Where a pushed command is. */
  datatype Loc = Queued | Held | Flying(req: nat) | Finished(out: Outcome)

  datatype Recipient = ToUser(tid: Tid) | ToCommand(id: nat)

  /** Results: `rem` holds the ids still owed to someone, `completion` the results ready to be
  picked up, `delivered` (history) who got each result. */
  datatype Ledger = Ledger(rem: set<nat>, completion: map<nat, Result>, delivered: map<nat, Recipient>)

  /** A command whose id is issued but which is not in the request queue yet. */
  datatype Pend = Pend(cmd: Command, owed: bool)

  /** An outstanding URPC request, oldest first; `id` is history. */
  datatype Slot = Slot(req: nat, id: nat, msg: Msg, reply: Option<Reply>)

  /** Where the holder of the progress lock is inside _progress_nolock. */
  datatype Phase =
    | Idle
    | Top(execVH: bool)
    | Popped(execVH: bool, cmd: Command)
    | Settled(execVH: bool, cmd: Command, out: Outcome, keep: bool, bad: bool)
    | Failing

  datatype Push = Push(cmd: Command, tid: Tid, session: nat)

  /** A pushed command, its position in push order, and where it is now. */
  datatype Entry = Entry(cmd: Command, pos: nat, loc: Loc)

  type Book = map<nat, Entry>

  function SetLoc(book: Book, id: nat, l: Loc): Book {
    if id in book then book[id := book[id].(loc := l)] else book
  }

  /** A write of the application to host memory, made when `pos` commands had been pushed. */
  datatype Stored = Stored(pos: nat, addr: nat, bytes: seq<Byte>)

  /** History: nothing below is read by the engine itself.
  `clean` says that no submission was refused, no exception raised, no peer lost, nobody took
  a result that another command was to pick up, and the application wrote to no memory that an unfinished
  command uses.  `raced` says that a command was sent while one in flight was to write host memory it reads. */
  datatype History = History(
    pushed: seq<Push>,
    book: Book,
    started: seq<nat>,
    refs: set<nat>,
    freed: seq<nat>,
    clean: bool,
    aborted: bool,
    threw: bool,
    init: World,
    stores: seq<Stored>,
    raced: bool)

  datatype State = State(
    request: seq<Command>,
    inflight: map<nat, Command>,
    ledger: Ledger,
    seqNo: nat,
    pending: map<Tid, Pend>,
    owner: Option<Tid>,
    depth: nat,
    session: nat,
    phase: Phase,
    wire: seq<Slot>,
    served: nat,
    nextReq: nat,
    ve: Mem,
    host: Mem,
    exited: bool,
    hist: History)

  predicate Init(s: State) {
    && s.request == [] && s.inflight == map[] && s.ledger == Ledger({}, map[], map[])
    && s.seqNo == 0 && s.pending == map[] && s.owner == None && s.depth == 0 && s.session == 0
    && s.phase == Idle && s.wire == [] && s.served == 0 && s.nextReq == 0 && !s.exited
    && s.hist == History([], map[], [], {}, [], true, false, false, World(s.ve, s.host), [], false)
  }

  datatype Fault = NoFault | Fault(code: Word, ve: Mem)

  datatype Step =
    // submitting and collecting threads
    | Issue(tid: Tid, op: Op)
    | Forget(tid: Tid)
    | Lock(tid: Tid)
    | Unlock(tid: Tid)
    | PushReq(tid: Tid)
    | Collect(tid: Tid, id: nat)
    | HostWrite(addr: nat, bytes: seq<Byte>)
    // the thread in the progress loop
    | Enter(execVH: bool)
    | Leave
    | Receive
    | Complete
    | Pop
    | PutBack
    | RunVH
    | Submit
    | Refuse
    | Abort
    | PeerDeath
    // the VE
    | Serve(fault: Fault)

  // ---- results ----

  datatype Peeked = Peeked(ledger: Ledger, status: Status, retval: Word)

  /** _peekResult: an id that is not owed gives ERROR; a ready result is taken out. */
  function Peek(l: Ledger, id: nat, who: Recipient): Peeked {
    if id !in l.rem then Peeked(l, Error, 0)
    else if id in l.completion then
      Peeked(Ledger(l.rem - {id}, l.completion - {id}, l.delivered[id := who]),
             l.completion[id].status, l.completion[id].retval)
    else Peeked(l, Unfinished, 0)
  }

  function PeekOpt(l: Ledger, id: Option<nat>, who: Recipient): Peeked {
    match id
    case None => Peeked(l, Ok, 0)
    case Some(x) => Peek(l, x, who)
  }

  /** unordered_map::insert keeps an entry that is already there. */
  function Insert<T>(m: map<nat, T>, id: nat, r: T): map<nat, T> {
    if id in m then m else m[id := r]
  }

  // ---- result functions ----

  datatype Answer = Answer(ledger: Ledger, out: Outcome, bad: bool)

  /** The result function of a VE command: pick up the predecessor, decide status and value.
  `bad` is a negative return value, which makes the progress loop abort. */
  function OnReply(l: Ledger, cmd: Command, reply: Reply): Answer {
    match cmd.op
    case Send(_, _, _, prev) =>
      var p := PeekOpt(l, prev, ToCommand(cmd.id));
      if reply.Exc? then Answer(p.ledger, Outcome(Result(Exception, TWO64 - URPC_CMD_SENDBUFF), Raised), true)
      else Answer(p.ledger, Outcome(Result(p.status, p.retval), Answered), false)
    case Recv(dst, _, size, prev) =>
      if reply.Data? && reply.dst == dst && |reply.bytes| == size then
        var p := PeekOpt(l, prev, ToCommand(cmd.id));
        Answer(p.ledger, Outcome(Result(p.status, p.retval), Answered), false)
      else Answer(l, Outcome(Result(Exception, TWO64 - URPC_CMD_RECVBUFF), Raised), true)
    case Call(_, _, _, _, _, _, _, _, _) =>
      match reply {
        case Value(v) => Answer(l, Outcome(Result(Ok, v), Answered), false)
        case Stack(v, _) => Answer(l, Outcome(Result(Ok, v), Answered), false)
        case Exc(c) => Answer(l, Outcome(Result(Exception, c), Raised), true)
        case _ => Answer(l, Outcome(Result(Exception, 0), Raised), true)
      }
    case _ =>
      match reply {
        case Ack => Answer(l, Outcome(Result(Ok, 0), Answered), false)
        case Stack(_, _) => Answer(l, Outcome(Result(Unfinished, 0), Answered), false)
        case Value(v) => Answer(l, Outcome(Result(Ok, v), Answered), false)
        case Exc(c) => Answer(l, Outcome(Result(Exception, c), Raised), true)
        case _ => Answer(l, Outcome(Result(Exception, 0), Raised), true)
      }
  }

  datatype VhAnswer = VhAnswer(ledger: Ledger, res: Result, readOk: bool)

  /** A VH command.  The join of a large call picks up its write, call and read parts; the first
  status that is not OK, in that order, becomes its own. */
  function OnVH(env: Env, l: Ledger, host: Mem, cmd: Command): VhAnswer
    requires cmd.op.IsVH()
  {
    match cmd.op
    case Vh(f, a, n) => VhAnswer(l, Result(Ok, VhRun(env, f, Read(host, a, n)).1), true)
    case Nop => VhAnswer(l, Result(Ok, 0), true)
    case Join(write, call, read, _, _, _, _) =>
      var me := ToCommand(cmd.id);
      var w := PeekOpt(l, write, me);
      var c := PeekOpt(w.ledger, call, me);
      var r := PeekOpt(c.ledger, read, me);
      var st := if w.status != Ok then w.status else if c.status != Ok then c.status else r.status;
      VhAnswer(r.ledger, Result(st, c.retval), r.status == Ok)
  }

  // ---- steps of submitting threads ----

  predicate Differ(a: Option<nat>, b: Option<nat>) { a == None || a != b }

  predicate PartsDiffer(op: Op) {
    op.Join? ==> Differ(op.write, op.call) && Differ(op.write, op.read) && Differ(op.call, op.read)
  }

  /** A command refers to ids that earlier submissions returned: pushed, waitable, and different
  ids for different parts. */
  predicate RefsOk(op: Op, book: Book) {
    (forall r :: r in op.Refs() ==> r in book && !book[r].cmd.op.Nowait()) && PartsDiffer(op)
  }

  /** issueRequestID plus the construction of the command, whose buffers are inside the memories. */
  predicate CanIssue(env: Env, s: State, tid: Tid, op: Op) {
    tid !in s.pending && RefsOk(op, s.hist.book) && OpOk(env, op, |s.ve|, |s.host|)
  }

  function DoIssue(s: State, tid: Tid, op: Op): State {
    s.(seqNo := s.seqNo + 1,
       pending := s.pending[tid := Pend(Command(s.seqNo, op), true)],
       ledger := s.ledger.(rem := s.ledger.rem + {s.seqNo}),
       hist := s.hist.(refs := s.hist.refs + op.Refs(),
                       clean := s.hist.clean && op.Refs() !! s.hist.refs
                                && op.Refs() !! s.ledger.delivered.Keys))
  }

  /** A nowait command is taken off the books before it is pushed. */
  predicate CanForget(s: State, tid: Tid) {
    tid in s.pending && s.pending[tid].cmd.op.Nowait() && s.pending[tid].owed
  }

  function DoForget(s: State, tid: Tid): State
    requires CanForget(s, tid)
  {
    var p := s.pending[tid];
    s.(pending := s.pending[tid := p.(owed := false)], ledger := s.ledger.(rem := s.ledger.rem - {p.cmd.id}))
  }

  predicate CanLock(s: State, tid: Tid) { s.owner == None || s.owner == Some(tid) }

  function DoLock(s: State, tid: Tid): State {
    s.(owner := Some(tid), depth := s.depth + 1, session := if s.depth == 0 then s.session + 1 else s.session)
  }

  predicate CanUnlock(s: State, tid: Tid) { s.owner == Some(tid) && s.depth > 0 }

  function DoUnlock(s: State): State
    requires s.depth > 0
  {
    s.(owner := if s.depth == 1 then None else s.owner, depth := s.depth - 1)
  }

  predicate CanPush(s: State, tid: Tid) {
    && s.owner == Some(tid) && s.depth > 0 && tid in s.pending
    && (s.pending[tid].cmd.op.Nowait() ==> !s.pending[tid].owed)
  }

  function DoPush(s: State, tid: Tid): State
    requires CanPush(s, tid)
  {
    var c := s.pending[tid].cmd;
    s.(request := s.request + [c],
       pending := s.pending - {tid},
       hist := s.hist.(pushed := s.hist.pushed + [Push(c, tid, s.session)],
                       book := s.hist.book[c.id := Entry(c, |s.hist.pushed|, Queued)]))
  }

  function DoCollect(s: State, tid: Tid, id: nat): State {
    var p := Peek(s.ledger, id, ToUser(tid));
    s.(ledger := p.ledger, hist := s.hist.(clean := s.hist.clean && (p.ledger == s.ledger || id !in s.hist.refs)))
  }

  predicate CanHostWrite(s: State, addr: nat, bytes: seq<Byte>) { addr + |bytes| <= |s.host| }

  /** The region is used by no command that is not finished. */
  predicate Unused(env: Env, book: Book, r: Region) {
    forall id :: id in book && !book[id].loc.Finished? ==>
      AllApart([r], Reads(env, book[id].cmd.op)) && AllApart([r], Writes(env, book[id].cmd.op))
  }

  /** The application writes to host memory. */
  function DoHostWrite(env: Env, s: State, addr: nat, bytes: seq<Byte>): State {
    s.(host := Write(s.host, addr, bytes),
       hist := s.hist.(stores := s.hist.stores + [Stored(|s.hist.pushed|, addr, bytes)],
                       clean := s.hist.clean && Unused(env, s.hist.book, Region(addr, |bytes|))))
  }

  // ---- steps of the progress loop ----

  predicate CanReceive(s: State) { s.phase.Top? && s.served > 0 && |s.wire| > 0 && s.wire[0].reply.Some? }

  /** Take the oldest reply and run the result function of its command.
  A reply whose command is not in the in-flight map makes the loop throw. */
  function DoReceive(s: State): State
    requires CanReceive(s)
  {
    var slot := s.wire[0];
    if slot.req !in s.inflight then
      s.(phase := Idle, wire := s.wire[1..], served := s.served - 1, hist := s.hist.(threw := true))
    else
      var cmd := s.inflight[slot.req];
      var a := OnReply(s.ledger, cmd, slot.reply.value);
      s.(phase := Settled(s.phase.execVH, cmd, a.out, !cmd.op.Nowait(), a.bad),
         wire := s.wire[1..],
         served := s.served - 1,
         inflight := s.inflight - {slot.req},
         ledger := a.ledger,
         host := HostEffect(cmd.op, s.host, slot.reply.value),
         exited := s.exited || (a.bad && (cmd.op.Call? || cmd.op.Generic?)),
         hist := s.hist.(book := SetLoc(s.hist.book, cmd.id, Held),
                         clean := s.hist.clean && !a.bad,
                         freed := if cmd.op.Call? && !cmd.op.keep then s.hist.freed + [cmd.id] else s.hist.freed))
  }

  /** pushCompletion, skipped for the answer to a nowait command. */
  function DoComplete(s: State): State
    requires s.phase.Settled?
  {
    var c := s.phase.cmd;
    s.(phase := if s.phase.bad then Failing else Top(s.phase.execVH),
       ledger := if s.phase.keep
                 then s.ledger.(completion := Insert(s.ledger.completion, c.id, s.phase.out.res))
                 else s.ledger,
       hist := s.hist.(book := SetLoc(s.hist.book, c.id, Finished(s.phase.out))))
  }

  predicate CanPop(s: State) { s.phase.Top? && |s.request| > 0 }

  function DoPop(s: State): State
    requires CanPop(s)
  {
    var c := s.request[0];
    s.(phase := Popped(s.phase.execVH, c), request := s.request[1..],
       hist := s.hist.(book := SetLoc(s.hist.book, c.id, Held)))
  }

  /** A VH command waits until nothing is in flight and the caller may run it; URPC may answer
  -EAGAIN to any VE command. */
  predicate CanPutBack(s: State) {
    s.phase.Popped? && (s.phase.cmd.op.IsVH() ==> s.inflight != map[] || !s.phase.execVH)
  }

  function DoPutBack(s: State): State
    requires s.phase.Popped?
  {
    var c := s.phase.cmd;
    s.(phase := Idle, request := [c] + s.request, hist := s.hist.(book := SetLoc(s.hist.book, c.id, Queued)))
  }

  predicate CanRunVH(s: State) {
    s.phase.Popped? && s.phase.cmd.op.IsVH() && s.phase.execVH && s.inflight == map[]
  }

  function DoRunVH(env: Env, s: State): State
    requires CanRunVH(s)
  {
    var cmd := s.phase.cmd;
    var a := OnVH(env, s.ledger, s.host, cmd);
    s.(phase := Settled(true, cmd, Outcome(a.res, Ran), true, false),
       ledger := a.ledger,
       host := VhEffect(env, cmd.op, s.host, a.readOk),
       hist := s.hist.(started := s.hist.started + [cmd.id],
                       freed := if cmd.op.Join? then s.hist.freed + [cmd.id] else s.hist.freed))
  }

  predicate CanSubmit(s: State) { s.phase.Popped? && !s.phase.cmd.op.IsVH() }

  /** No command in flight is going to write what `op` reads. */
  predicate InTheClear(env: Env, inflight: map<nat, Command>, op: Op) {
    forall r :: r in inflight ==> AllApart(Writes(env, inflight[r].op), Reads(env, op))
  }

  function DoSubmit(env: Env, s: State): State
    requires CanSubmit(s)
  {
    var cmd := s.phase.cmd;
    s.(phase := Top(s.phase.execVH),
       inflight := s.inflight[s.nextReq := cmd],
       wire := s.wire + [Slot(s.nextReq, cmd.id, MsgOf(env, cmd.op, s.host), None)],
       nextReq := s.nextReq + 1,
       hist := s.hist.(started := s.hist.started + [cmd.id], book := SetLoc(s.hist.book, cmd.id, Flying(s.nextReq)),
                       raced := s.hist.raced || !InTheClear(env, s.inflight, cmd.op)))
  }

  /** The submit function failed for good. */
  function DoRefuse(s: State): State
    requires CanSubmit(s)
  {
    var cmd := s.phase.cmd;
    s.(phase := Settled(s.phase.execVH, cmd, Outcome(Result(Error, TWO64 - 1), Refused), true, false),
       hist := s.hist.(started := s.hist.started + [cmd.id], clean := false))
  }

  function IdsOf(cs: seq<Command>): set<nat> { set c | c in cs :: c.id }

  /** Ids of everything queued or in flight. */
  function Outstanding(s: State): set<nat> { IdsOf(s.request) + IdsAt(s.inflight) }

  /** Ids of the commands in an in-flight map. */
  function IdsAt(m: map<nat, Command>): set<nat> { set r | r in m :: m[r].id }

  const CANCELLED: Outcome := Outcome(Result(Error, 0), Cancelled)

  /** Completion map after the commands `gone` were cancelled. */
  function Cancel(completion: map<nat, Result>, gone: set<nat>): map<nat, Result> {
    map id | id in completion.Keys + gone :: if id in completion then completion[id] else CANCELLED.res
  }

  /** cancelAll: everything queued or in flight completes with ERROR. */
  function DoCancelAll(s: State): State {
    var gone := Outstanding(s);
    s.(phase := Idle, request := [], inflight := map[], exited := true,
       ledger := s.ledger.(completion := Cancel(s.ledger.completion, gone)),
       hist := s.hist.(clean := false, aborted := true,
         book := map id | id in s.hist.book ::
           if id in gone then s.hist.book[id].(loc := Finished(CANCELLED)) else s.hist.book[id]))
  }

  // ---- the VE ----

  predicate CanServe(s: State, f: Fault) { s.served < |s.wire| && (f.Fault? ==> |f.ve| == |s.ve|) }

  /** The oldest message not served yet is handled, or the VE raises an exception in it. */
  function DoServe(env: Env, s: State, f: Fault): State
    requires CanServe(s, f)
  {
    var slot := s.wire[s.served];
    var h := if f.NoFault? then Handle(env, s.ve, slot.msg) else (f.ve, Exc(f.code));
    s.(wire := s.wire[s.served := slot.(reply := Some(h.1))], served := s.served + 1, ve := h.0,
       hist := s.hist.(clean := s.hist.clean && f.NoFault?))
  }

  // ---- runs ----

  predicate Enabled(env: Env, s: State, st: Step) {
    match st
    case Issue(t, op) => CanIssue(env, s, t, op)
    case Forget(t) => CanForget(s, t)
    case Lock(t) => CanLock(s, t)
    case Unlock(t) => CanUnlock(s, t)
    case PushReq(t) => CanPush(s, t)
    case Collect(_, _) => true
    case HostWrite(a, d) => CanHostWrite(s, a, d)
    case Enter(_) => s.phase.Idle?
    case Leave => s.phase.Top?
    case Receive => CanReceive(s)
    case Complete => s.phase.Settled?
    case Pop => CanPop(s)
    case PutBack => CanPutBack(s)
    case RunVH => CanRunVH(s)
    case Submit => CanSubmit(s)
    case Refuse => CanSubmit(s)
    case Abort => s.phase.Failing?
    case PeerDeath => s.phase.Top?
    case Serve(f) => CanServe(s, f)
  }

  function Next(env: Env, s: State, st: Step): State
    requires Enabled(env, s, st)
  {
    match st
    case Issue(t, op) => DoIssue(s, t, op)
    case Forget(t) => DoForget(s, t)
    case Lock(t) => DoLock(s, t)
    case Unlock(_) => DoUnlock(s)
    case PushReq(t) => DoPush(s, t)
    case Collect(t, id) => DoCollect(s, t, id)
    case HostWrite(a, d) => DoHostWrite(env, s, a, d)
    case Enter(e) => s.(phase := Top(e))
    case Leave => s.(phase := Idle)
    case Receive => DoReceive(s)
    case Complete => DoComplete(s)
    case Pop => DoPop(s)
    case PutBack => DoPutBack(s)
    case RunVH => DoRunVH(env, s)
    case Submit => DoSubmit(env, s)
    case Refuse => DoRefuse(s)
    case Abort => DoCancelAll(s)
    case PeerDeath => DoCancelAll(s)
    case Serve(f) => DoServe(env, s, f)
  }

  /** The state after a sequence of steps, if each of them was possible. */
  function Run(env: Env, s: State, steps: seq<Step>): Option<State> {
    if steps == [] then Some(s)
    else
      match Run(env, s, steps[..|steps| - 1])
      case None => None
      case Some(m) =>
        if Enabled(env, m, steps[|steps| - 1]) then Some(Next(env, m, steps[|steps| - 1])) else None
  }

  ghost predicate Reachable(env: Env, s: State) {
    exists s0, steps :: Init(s0) && Run(env, s0, steps) == Some(s)
  }

  lemma RunSnoc(env: Env, s: State, steps: seq<Step>, st: Step)
    ensures Run(env, s, steps + [st]) ==
      (match Run(env, s, steps)
       case None => None
       case Some(m) => if Enabled(env, m, st) then Some(Next(env, m, st)) else None)
  {
    assert (steps + [st])[..|steps|] == steps;
  }

  lemma {:induction false} RunConcat(env: Env, s: State, a: seq<Step>, b: seq<Step>)
    requires Run(env, s, a).Some?
    ensures Run(env, s, a + b) == Run(env, Run(env, s, a).value, b)
  {
    if b == [] {
      assert a + b == a;
    } else {
      assert (a + b)[..|a + b| - 1] == a + b[..|b| - 1];
      RunConcat(env, s, a, b[..|b| - 1]);
    }
  }

  lemma OneStep(env: Env, s: State, a: Step)
    requires Enabled(env, s, a)
    ensures Run(env, s, [a]) == Some(Next(env, s, a))
  {
    RunSnoc(env, s, [], a);
    assert [] + [a] == [a];
  }

  lemma TwoSteps(env: Env, s: State, a: Step, b: Step)
    requires Enabled(env, s, a) && Enabled(env, Next(env, s, a), b)
    ensures Run(env, s, [a, b]) == Some(Next(env, Next(env, s, a), b))
  {
    hide Next, Enabled;
    OneStep(env, s, a);
    RunSnoc(env, s, [a], b);
    assert [a] + [b] == [a, b];
  }

  lemma Extend(env: Env, s: State, a: seq<Step>, b: seq<Step>) returns (r: seq<Step>)
    requires Run(env, s, a).Some?
    ensures r == a + b && Run(env, s, r) == Run(env, Run(env, s, a).value, b)
  {
    r := a + b;
    RunConcat(env, s, a, b);
  }

  lemma ReachableMore(env: Env, s: State, steps: seq<Step>)
    requires Reachable(env, s) && Run(env, s, steps).Some?
    ensures Reachable(env, Run(env, s, steps).value)
  {
    var s0, before :| Init(s0) && Run(env, s0, before) == Some(s);
    RunConcat(env, s0, before, steps);
  }
}
