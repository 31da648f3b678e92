/** What every step of the engine keeps.  Each predicate names just the parts of the state it is about. */
module EngineInv {
  import opened Memory
  import opened Protocol
  import opened Engine

  /** Number of commands that have left the request queue; the queue holds the rest. */
  function Front(s: State): int { |s.hist.pushed| - |s.request| }

  /** Number of commands that have left it for good. */
  function Begun(s: State): int { if s.phase.Popped? then Front(s) - 1 else Front(s) }

  /** Pushed commands have distinct ids, and the book gives the push position of each. */
  ghost predicate Tickets(pushed: seq<Push>, book: Book, seqNo: nat, pending: map<Tid, Pend>) {
    && (forall i :: 0 <= i < |pushed| ==>
          pushed[i].cmd.id in book && book[pushed[i].cmd.id].pos == i && book[pushed[i].cmd.id].cmd == pushed[i].cmd)
    && (forall id :: id in book ==>
          book[id].pos < |pushed| && pushed[book[id].pos].cmd == book[id].cmd && book[id].cmd.id == id && id < seqNo)
    && (forall t :: t in pending ==> pending[t].cmd.id < seqNo && pending[t].cmd.id !in book)
    && (forall t, u :: t in pending && u in pending && t != u ==> pending[t].cmd.id != pending[u].cmd.id)
  }

  ghost predicate AllBefore(refs: set<nat>, pos: nat, book: Book) {
    forall r :: r in refs ==> r in book && book[r].pos < pos && !book[r].cmd.op.Nowait()
  }

  /** A command refers only to commands pushed before it. */
  ghost predicate Backward(pushed: nat, book: Book, pending: map<Tid, Pend>) {
    && (forall id :: id in book ==>
          AllBefore(book[id].cmd.op.Refs(), book[id].pos, book) && PartsDiffer(book[id].cmd.op))
    && (forall t :: t in pending ==>
          AllBefore(pending[t].cmd.op.Refs(), pushed, book) && PartsDiffer(pending[t].cmd.op))
  }

  /** The request queue is the part of the push history that has not been taken yet. */
  ghost predicate Queue(request: seq<Command>, pushed: seq<Push>, book: Book) {
    var front := |pushed| - |request|;
    && 0 <= front
    && (forall k :: 0 <= k < |request| ==> request[k] == pushed[front + k].cmd)
    && (forall id :: id in book ==> (book[id].loc.Queued? <==> book[id].pos >= front))
  }

  predicate Holding(p: Phase) { p.Popped? || p.Settled? }

  /** At most one command is in the hands of the progress loop. */
  ghost predicate Hand(phase: Phase, front: int, book: Book) {
    && (Holding(phase) ==>
          phase.cmd.id in book && book[phase.cmd.id].cmd == phase.cmd && book[phase.cmd.id].loc.Held?)
    && (phase.Popped? ==> book[phase.cmd.id].pos == front - 1)
    && (forall id :: id in book && book[id].loc.Held? ==> Holding(phase) && phase.cmd.id == id)
  }

  ghost predicate Flight(inflight: map<nat, Command>, nextReq: nat, book: Book) {
    && (forall r :: r in inflight ==>
          && inflight[r].id in book && book[inflight[r].id].cmd == inflight[r]
          && book[inflight[r].id].loc == Flying(r) && !inflight[r].op.IsVH() && r < nextReq)
    && (forall id :: id in book && book[id].loc.Flying? ==>
          book[id].loc.req in inflight && inflight[book[id].loc.req].id == id)
  }

  predicate OnWire(wire: seq<Slot>, r: nat) { exists k :: 0 <= k < |wire| && wire[k].req == r }

  /** A message of the right shape for a command. */
  predicate MsgFits(env: Env, op: Op, msg: Msg) {
    match op
    case Send(_, _, _, _) => msg.MSend?
    case Recv(dst, src, size, _) => msg == MRecv(src, dst, size)
    case Generic(_, _) => msg.MGeneric?
    case Call(_, regs, _, size, cin, cout, _, _, _) =>
      if !(cin || cout) then msg.MCall?
      else msg.MCallStk? && msg.cout == cout && |msg.buf| == HeadSize(env, |regs|, size)
    case _ => false
  }

  predicate SlotOk(env: Env, slot: Slot, served: bool, book: Book) {
    && slot.id in book
    && (slot.reply.Some? <==> served)
    && MsgFits(env, book[slot.id].cmd.op, slot.msg)
    && (served ==> slot.reply.value.Exc? || GoodReply(env, book[slot.id].cmd.op, slot.reply.value))
  }

  /** The wire is FIFO: request numbers and push positions both grow along it. */
  ghost predicate Wire(env: Env, wire: seq<Slot>, served: nat, nextReq: nat, begun: int, book: Book) {
    && served <= |wire|
    && (forall k :: 0 <= k < |wire| ==> SlotOk(env, wire[k], k < served, book))
    && (forall k :: 0 <= k < |wire| ==> wire[k].req < nextReq && book[wire[k].id].pos < begun)
    && (forall j, k :: 0 <= j < k < |wire| ==>
          wire[j].req < wire[k].req && book[wire[j].id].pos < book[wire[k].id].pos)
  }

  /** Every command in flight has its slot on the wire, and before an abort every slot has its command. */
  ghost predicate Slotted(aborted: bool, inflight: map<nat, Command>, wire: seq<Slot>) {
    && (!aborted ==> forall k :: 0 <= k < |wire| ==> wire[k].req in inflight)
    && (forall r :: r in inflight ==> OnWire(wire, r))
    && (forall k :: 0 <= k < |wire| && wire[k].req in inflight ==> inflight[wire[k].req].id == wire[k].id)
  }

  predicate Owed(pending: map<Tid, Pend>, id: nat) {
    exists t :: t in pending && pending[t].owed && pending[t].cmd.id == id
  }

  /** Owed, ready and delivered results. */
  ghost predicate Books(l: Ledger, book: Book) {
    && (forall id :: id in l.completion ==>
          id in book && book[id].loc.Finished? && book[id].loc.out.res == l.completion[id] && id !in l.delivered)
    && (forall id :: id in l.delivered ==> id in book && book[id].loc.Finished? && !book[id].cmd.op.Nowait())
    && (forall id :: id in book && book[id].loc.Finished? && !book[id].cmd.op.Nowait() ==>
          id in l.delivered || id in l.completion)
    && (forall id :: id in book ==> (id in l.rem <==> !book[id].cmd.op.Nowait() && id !in l.delivered))
  }

  /** Ids that are issued but not pushed yet. */
  ghost predicate Issued(rem: set<nat>, pending: map<Tid, Pend>, book: Book) {
    && (forall id :: id in rem ==> id in book || Owed(pending, id))
    && (forall t :: t in pending ==>
          && (pending[t].owed <==> pending[t].cmd.id in rem)
          && (!pending[t].owed ==> pending[t].cmd.op.Nowait()))
  }

  /** Pushes of one lock session belong to one thread, and sessions follow each other. */
  ghost predicate Sessions(pushed: seq<Push>, owner: Option<Tid>, depth: nat, session: nat) {
    && (depth == 0 <==> owner == None)
    && (forall i :: 0 <= i < |pushed| ==>
          && pushed[i].session <= session
          && (owner.Some? && pushed[i].session == session ==> pushed[i].tid == owner.value))
    && (forall i, j :: 0 <= i < j < |pushed| ==>
          && pushed[i].session <= pushed[j].session
          && (pushed[i].session == pushed[j].session ==> pushed[i].tid == pushed[j].tid))
  }

  function Ids(ps: seq<Push>): (r: seq<nat>)
    ensures |r| == |ps| && forall i :: 0 <= i < |ps| ==> r[i] == ps[i].cmd.id
  {
    seq(|ps|, i requires 0 <= i < |ps| => ps[i].cmd.id)
  }

  /** Commands start in push order. */
  ghost predicate Fifo(aborted: bool, started: seq<nat>, begun: int, pushed: seq<Push>) {
    !aborted ==> 0 <= begun <= |pushed| && started == Ids(pushed[..begun])
  }

  /** The command has its result, though it may not be in the completion map yet. */
  predicate HasRun(phase: Phase, book: Book, id: nat)
    requires id in book
  {
    book[id].loc.Finished? || (phase.Settled? && phase.cmd.id == id)
  }

  /** A VH command that has run leaves nothing unfinished before it. */
  ghost predicate Barrier(phase: Phase, book: Book) {
    forall a, b :: a in book && b in book && book[a].pos < book[b].pos
      && book[b].cmd.op.IsVH() && HasRun(phase, book, b)
      ==> book[a].loc.Finished?
  }

  ghost predicate Inv(env: Env, s: State) {
    && Tickets(s.hist.pushed, s.hist.book, s.seqNo, s.pending)
    && Backward(|s.hist.pushed|, s.hist.book, s.pending)
    && Queue(s.request, s.hist.pushed, s.hist.book)
    && Hand(s.phase, Front(s), s.hist.book)
    && Flight(s.inflight, s.nextReq, s.hist.book)
    && Wire(env, s.wire, s.served, s.nextReq, Begun(s), s.hist.book)
    && Slotted(s.hist.aborted, s.inflight, s.wire)
    && Books(s.ledger, s.hist.book)
    && Issued(s.ledger.rem, s.pending, s.hist.book)
    && (s.phase.Settled? && !s.phase.keep ==> s.phase.cmd.op.Nowait())
    && Sessions(s.hist.pushed, s.owner, s.depth, s.session)
    && Fifo(s.hist.aborted, s.hist.started, Begun(s), s.hist.pushed)
    && Barrier(s.phase, s.hist.book)
    && (s.hist.clean ==> !s.hist.aborted)
    && (s.hist.threw ==> s.hist.aborted)
  }

  lemma InitInv(env: Env, s: State)
    requires Init(s)
    ensures Inv(env, s)
  {
  }

  // ---- steps seen from the parts ----

  /** Two books that differ only in where commands are. */
  ghost predicate SameRoll(a: Book, b: Book) {
    a.Keys == b.Keys && forall id :: id in a ==> a[id].cmd == b[id].cmd && a[id].pos == b[id].pos
  }

  lemma TicketsRoll(pushed: seq<Push>, a: Book, b: Book, seqNo: nat, pending: map<Tid, Pend>)
    requires Tickets(pushed, a, seqNo, pending) && SameRoll(a, b)
    ensures Tickets(pushed, b, seqNo, pending)
  {
  }

  lemma BackwardRoll(pushed: nat, a: Book, b: Book, pending: map<Tid, Pend>)
    requires Backward(pushed, a, pending) && SameRoll(a, b)
    ensures Backward(pushed, b, pending)
  {
    forall id | id in b ensures AllBefore(b[id].cmd.op.Refs(), b[id].pos, b) {
      AllBeforeRoll(a[id].cmd.op.Refs(), a[id].pos, a, b);
    }
    forall t | t in pending ensures AllBefore(pending[t].cmd.op.Refs(), pushed, b) {
      AllBeforeRoll(pending[t].cmd.op.Refs(), pushed, a, b);
    }
  }

  lemma AllBeforeRoll(refs: set<nat>, pos: nat, a: Book, b: Book)
    requires AllBefore(refs, pos, a) && SameRoll(a, b)
    ensures AllBefore(refs, pos, b)
  {
  }

  lemma WireRoll(env: Env, wire: seq<Slot>, served: nat, nextReq: nat, begun: int, a: Book, b: Book)
    requires Wire(env, wire, served, nextReq, begun, a) && SameRoll(a, b)
    ensures Wire(env, wire, served, nextReq, begun, b)
  {
    forall k | 0 <= k < |wire| ensures SlotOk(env, wire[k], k < served, b) {
      assert SlotOk(env, wire[k], k < served, a);
    }
  }

  lemma IssuedRoll(rem: set<nat>, pending: map<Tid, Pend>, a: Book, b: Book)
    requires Issued(rem, pending, a) && a.Keys == b.Keys
    ensures Issued(rem, pending, b)
  {
  }

  lemma TicketsPush(pushed: seq<Push>, book: Book, seqNo: nat, pending: map<Tid, Pend>, tid: Tid, n: nat)
    requires Tickets(pushed, book, seqNo, pending) && tid in pending
    ensures var c := pending[tid].cmd;
      Tickets(pushed + [Push(c, tid, n)], book[c.id := Entry(c, |pushed|, Queued)], seqNo, pending - {tid})
  {
  }

  lemma TicketsIssue(pushed: seq<Push>, book: Book, seqNo: nat, pending: map<Tid, Pend>, tid: Tid, c: Command)
    requires Tickets(pushed, book, seqNo, pending) && tid !in pending && c.id == seqNo
    ensures Tickets(pushed, book, seqNo + 1, pending[tid := Pend(c, true)])
    ensures c.id !in book && forall t :: t in pending ==> pending[t].cmd.id != c.id
  {
  }

  lemma BackwardIssue(pushed: seq<Push>, book: Book, seqNo: nat, pending: map<Tid, Pend>, tid: Tid, c: Command)
    requires Tickets(pushed, book, seqNo, pending) && Backward(|pushed|, book, pending) && RefsOk(c.op, book)
    ensures Backward(|pushed|, book, pending[tid := Pend(c, true)])
  {
    assert AllBefore(c.op.Refs(), |pushed|, book);
  }

  lemma BackwardPush(pushed: nat, book: Book, pending: map<Tid, Pend>, tid: Tid)
    requires Backward(pushed, book, pending) && tid in pending && pending[tid].cmd.id !in book
    ensures var c := pending[tid].cmd;
      Backward(pushed + 1, book[c.id := Entry(c, pushed, Queued)], pending - {tid})
  {
    var c := pending[tid].cmd;
    var b := book[c.id := Entry(c, pushed, Queued)];
    forall id | id in b ensures AllBefore(b[id].cmd.op.Refs(), b[id].pos, b) {
      if id == c.id { AllBeforeMore(c.op.Refs(), pushed, pushed, book, b); }
      else { AllBeforeMore(b[id].cmd.op.Refs(), b[id].pos, b[id].pos, book, b); }
    }
    forall t | t in pending - {tid} ensures AllBefore(pending[t].cmd.op.Refs(), pushed + 1, b) {
      AllBeforeMore(pending[t].cmd.op.Refs(), pushed, pushed + 1, book, b);
    }
  }

  lemma AllBeforeMore(refs: set<nat>, pos: nat, pos': nat, a: Book, b: Book)
    requires AllBefore(refs, pos, a) && pos <= pos'
    requires forall id :: id in a ==> id in b && b[id].pos == a[id].pos && b[id].cmd == a[id].cmd
    ensures AllBefore(refs, pos', b)
  {
  }

  lemma QueueMove(request: seq<Command>, pushed: seq<Push>, book: Book, id: nat, l: Loc)
    requires Queue(request, pushed, book) && id in book && book[id].loc.Queued? == l.Queued?
    ensures Queue(request, pushed, SetLoc(book, id, l))
  {
  }

  lemma QueuePush(request: seq<Command>, pushed: seq<Push>, book: Book, p: Push)
    requires Queue(request, pushed, book) && p.cmd.id !in book
    requires forall id :: id in book ==> book[id].pos < |pushed|
    ensures Queue(request + [p.cmd], pushed + [p], book[p.cmd.id := Entry(p.cmd, |pushed|, Queued)])
  {
  }

  lemma QueuePop(request: seq<Command>, pushed: seq<Push>, book: Book, seqNo: nat, pending: map<Tid, Pend>)
    requires Queue(request, pushed, book) && |request| > 0 && Tickets(pushed, book, seqNo, pending)
    ensures Queue(request[1..], pushed, SetLoc(book, request[0].id, Held))
    ensures request[0].id in book && book[request[0].id].pos == |pushed| - |request|
    ensures book[request[0].id].cmd == request[0]
  {
    assert request[0] == pushed[|pushed| - |request|].cmd;
  }

  lemma QueuePutBack(request: seq<Command>, pushed: seq<Push>, book: Book, seqNo: nat, pending: map<Tid, Pend>, c: Command)
    requires Queue(request, pushed, book) && Tickets(pushed, book, seqNo, pending)
    requires c.id in book && book[c.id].cmd == c && book[c.id].pos == |pushed| - |request| - 1
    ensures Queue([c] + request, pushed, SetLoc(book, c.id, Queued))
  {
  }

  lemma FlightMove(inflight: map<nat, Command>, nextReq: nat, book: Book, id: nat, l: Loc)
    requires Flight(inflight, nextReq, book) && id in book && !book[id].loc.Flying? && !l.Flying?
    ensures Flight(inflight, nextReq, SetLoc(book, id, l))
  {
  }

  lemma FlightPush(inflight: map<nat, Command>, nextReq: nat, book: Book, e: Entry)
    requires Flight(inflight, nextReq, book) && e.cmd.id !in book && e.loc.Queued?
    ensures Flight(inflight, nextReq, book[e.cmd.id := e])
  {
  }

  lemma FlightSubmit(inflight: map<nat, Command>, nextReq: nat, book: Book, c: Command)
    requires Flight(inflight, nextReq, book) && c.id in book && book[c.id].cmd == c
    requires !c.op.IsVH() && !book[c.id].loc.Flying?
    ensures Flight(inflight[nextReq := c], nextReq + 1, SetLoc(book, c.id, Flying(nextReq)))
  {
  }

  lemma FlightLand(inflight: map<nat, Command>, nextReq: nat, book: Book, r: nat)
    requires Flight(inflight, nextReq, book) && r in inflight
    ensures Flight(inflight - {r}, nextReq, SetLoc(book, inflight[r].id, Held))
  {
  }

  lemma WirePush(env: Env, wire: seq<Slot>, served: nat, nextReq: nat, begun: int, book: Book, e: Entry)
    requires Wire(env, wire, served, nextReq, begun, book) && e.cmd.id !in book
    ensures Wire(env, wire, served, nextReq, begun, book[e.cmd.id := e])
  {
    forall k | 0 <= k < |wire| ensures SlotOk(env, wire[k], k < served, book[e.cmd.id := e]) {
      assert SlotOk(env, wire[k], k < served, book);
    }
  }

  lemma WireMore(env: Env, wire: seq<Slot>, served: nat, nextReq: nat, begun: int, begun': int, book: Book)
    requires Wire(env, wire, served, nextReq, begun, book) && begun <= begun'
    ensures Wire(env, wire, served, nextReq, begun', book)
  {
  }

  lemma WireSubmit(env: Env, wire: seq<Slot>, served: nat, nextReq: nat, begun: int, book: Book, c: Command, host: Mem)
    requires Wire(env, wire, served, nextReq, begun, book) && !c.op.IsVH()
    requires c.id in book && book[c.id].cmd == c && book[c.id].pos == begun
    ensures Wire(env, wire + [Slot(nextReq, c.id, MsgOf(env, c.op, host), None)], served, nextReq + 1, begun + 1, book)
  {
    var w := wire + [Slot(nextReq, c.id, MsgOf(env, c.op, host), None)];
    forall k | 0 <= k < |w| ensures SlotOk(env, w[k], k < served, book) {
      if k < |wire| { assert SlotOk(env, wire[k], k < served, book); }
    }
  }

  lemma WireDrop(env: Env, wire: seq<Slot>, served: nat, nextReq: nat, begun: int, book: Book)
    requires Wire(env, wire, served, nextReq, begun, book) && served > 0
    ensures Wire(env, wire[1..], served - 1, nextReq, begun, book)
  {
    forall k | 0 <= k < |wire[1..]| ensures SlotOk(env, wire[1..][k], k < served - 1, book) {
      assert SlotOk(env, wire[k + 1], k + 1 < served, book);
    }
  }

  lemma WireServe(env: Env, wire: seq<Slot>, served: nat, nextReq: nat, begun: int, book: Book, reply: Reply)
    requires Wire(env, wire, served, nextReq, begun, book) && served < |wire|
    requires reply.Exc? || GoodReply(env, book[wire[served].id].cmd.op, reply)
    ensures Wire(env, wire[served := wire[served].(reply := Some(reply))], served + 1, nextReq, begun, book)
  {
    var w := wire[served := wire[served].(reply := Some(reply))];
    forall k | 0 <= k < |w| ensures SlotOk(env, w[k], k < served + 1, book) {
      assert SlotOk(env, wire[k], k < served, book);
    }
  }

  lemma FittingReply(env: Env, op: Op, ve: Mem, msg: Msg)
    requires MsgFits(env, op, msg)
    ensures GoodReply(env, op, Handle(env, ve, msg).1)
  {
  }

  lemma SlottedSubmit(aborted: bool, inflight: map<nat, Command>, wire: seq<Slot>, slot: Slot, c: Command)
    requires Slotted(aborted, inflight, wire) && slot.id == c.id
    requires forall k :: 0 <= k < |wire| ==> wire[k].req < slot.req
    ensures Slotted(aborted, inflight[slot.req := c], wire + [slot])
  {
    var w := wire + [slot];
    forall r | r in inflight[slot.req := c] ensures OnWire(w, r) {
      if r == slot.req { assert w[|wire|].req == r; }
      else {
        assert OnWire(wire, r);
        var k :| 0 <= k < |wire| && wire[k].req == r;
        assert w[k].req == r;
      }
    }
  }

  lemma SlottedDrop(aborted: bool, inflight: map<nat, Command>, wire: seq<Slot>)
    requires Slotted(aborted, inflight, wire) && |wire| > 0
    requires forall k :: 0 < k < |wire| ==> wire[0].req < wire[k].req
    ensures Slotted(aborted, inflight - {wire[0].req}, wire[1..])
  {
    forall r | r in inflight - {wire[0].req} ensures OnWire(wire[1..], r) {
      assert OnWire(wire, r);
      var k :| 0 <= k < |wire| && wire[k].req == r;
      assert wire[1..][k - 1].req == r;
    }
  }

  lemma SlottedServe(aborted: bool, inflight: map<nat, Command>, wire: seq<Slot>, i: nat, reply: Reply)
    requires Slotted(aborted, inflight, wire) && i < |wire|
    ensures Slotted(aborted, inflight, wire[i := wire[i].(reply := Some(reply))])
  {
    var w := wire[i := wire[i].(reply := Some(reply))];
    forall r | r in inflight ensures OnWire(w, r) {
      assert OnWire(wire, r);
      var k :| 0 <= k < |wire| && wire[k].req == r;
      assert w[k].req == r;
    }
  }

  lemma BooksMove(l: Ledger, book: Book, id: nat, to: Loc)
    requires Books(l, book) && id in book && !book[id].loc.Finished? && !to.Finished?
    ensures Books(l, SetLoc(book, id, to))
  {
  }

  lemma BooksPush(l: Ledger, book: Book, e: Entry)
    requires Books(l, book) && e.cmd.id !in book && e.loc.Queued?
    requires e.cmd.id in l.rem <==> !e.cmd.op.Nowait()
    ensures Books(l, book[e.cmd.id := e])
  {
  }

  lemma BooksRem(l: Ledger, book: Book, id: nat)
    requires Books(l, book) && id !in book
    ensures Books(l.(rem := l.rem + {id}), book) && Books(l.(rem := l.rem - {id}), book)
  {
  }

  lemma BooksPeek(l: Ledger, book: Book, id: nat, who: Recipient)
    requires Books(l, book)
    ensures Books(Peek(l, id, who).ledger, book)
  {
  }

  lemma BooksComplete(l: Ledger, book: Book, id: nat, out: Outcome, keep: bool)
    requires Books(l, book) && id in book && !book[id].loc.Finished?
    requires !keep ==> book[id].cmd.op.Nowait()
    ensures id !in l.completion
    ensures Books(if keep then l.(completion := Insert(l.completion, id, out.res)) else l, SetLoc(book, id, Finished(out)))
  {
  }

  lemma IssuedIssue(rem: set<nat>, pending: map<Tid, Pend>, book: Book, tid: Tid, c: Command)
    requires Issued(rem, pending, book) && tid !in pending
    requires forall t :: t in pending ==> pending[t].cmd.id != c.id
    ensures Issued(rem + {c.id}, pending[tid := Pend(c, true)], book)
  {
    var p := pending[tid := Pend(c, true)];
    forall id | id in rem + {c.id} ensures id in book || Owed(p, id) {
      if id == c.id { assert p[tid].owed && p[tid].cmd.id == id; }
      else if id !in book {
        assert Owed(pending, id);
        var t :| t in pending && pending[t].owed && pending[t].cmd.id == id;
        assert t in p && p[t].owed && p[t].cmd.id == id;
      }
    }
  }

  lemma IssuedForget(rem: set<nat>, pending: map<Tid, Pend>, book: Book, tid: Tid)
    requires Issued(rem, pending, book) && tid in pending && pending[tid].cmd.op.Nowait()
    requires forall t, u :: t in pending && u in pending && t != u ==> pending[t].cmd.id != pending[u].cmd.id
    ensures Issued(rem - {pending[tid].cmd.id}, pending[tid := pending[tid].(owed := false)], book)
  {
    var p := pending[tid := pending[tid].(owed := false)];
    forall id | id in rem - {pending[tid].cmd.id} ensures id in book || Owed(p, id) {
      if id !in book {
        assert Owed(pending, id);
        var t :| t in pending && pending[t].owed && pending[t].cmd.id == id;
        assert t in p && p[t].owed && p[t].cmd.id == id;
      }
    }
  }

  lemma IssuedPush(rem: set<nat>, pending: map<Tid, Pend>, book: Book, tid: Tid, e: Entry)
    requires Issued(rem, pending, book) && tid in pending && e.cmd == pending[tid].cmd
    ensures Issued(rem, pending - {tid}, book[e.cmd.id := e])
  {
    var p := pending - {tid};
    forall id | id in rem ensures id in book[e.cmd.id := e] || Owed(p, id) {
      if id !in book && id != e.cmd.id {
        assert Owed(pending, id);
        var t :| t in pending && pending[t].owed && pending[t].cmd.id == id;
        assert t in p && p[t].owed && p[t].cmd.id == id;
      }
    }
  }

  lemma IssuedPeek(l: Ledger, pending: map<Tid, Pend>, book: Book, id: nat, who: Recipient)
    requires Issued(l.rem, pending, book) && Books(l, book)
    requires forall t :: t in pending ==> pending[t].cmd.id !in book
    ensures Issued(Peek(l, id, who).ledger.rem, pending, book)
  {
  }

  lemma SessionsPush(pushed: seq<Push>, depth: nat, session: nat, c: Command, tid: Tid)
    requires Sessions(pushed, Some(tid), depth, session)
    ensures Sessions(pushed + [Push(c, tid, session)], Some(tid), depth, session)
  {
  }

  lemma FifoPush(aborted: bool, started: seq<nat>, begun: int, pushed: seq<Push>, p: Push)
    requires Fifo(aborted, started, begun, pushed)
    ensures Fifo(aborted, started, begun, pushed + [p])
  {
    if !aborted { assert (pushed + [p])[..begun] == pushed[..begun]; }
  }

  lemma FifoStart(aborted: bool, started: seq<nat>, begun: int, pushed: seq<Push>)
    requires Fifo(aborted, started, begun, pushed) && 0 <= begun < |pushed|
    ensures Fifo(aborted, started + [pushed[begun].cmd.id], begun + 1, pushed)
  {
    if !aborted { assert pushed[..begun + 1] == pushed[..begun] + [pushed[begun]]; }
  }

  lemma BarrierMove(phase: Phase, book: Book, phase': Phase, id: nat, to: Loc)
    requires Barrier(phase, book) && id in book && !book[id].loc.Finished? && !to.Finished?
    requires phase'.Settled? ==> phase'.cmd.id == id && !book[id].cmd.op.IsVH()
    requires phase.Settled? ==> phase' == phase
    ensures Barrier(phase', SetLoc(book, id, to))
  {
    var b := SetLoc(book, id, to);
    forall x, y | x in b && y in b && b[x].pos < b[y].pos && b[y].cmd.op.IsVH() && HasRun(phase', b, y)
      ensures b[x].loc.Finished?
    {
      assert HasRun(phase, book, y);
    }
  }

  lemma BarrierComplete(phase: Phase, book: Book, phase': Phase)
    requires Barrier(phase, book) && phase.Settled? && phase.cmd.id in book && !phase'.Settled?
    ensures Barrier(phase', SetLoc(book, phase.cmd.id, Finished(phase.out)))
  {
    var b := SetLoc(book, phase.cmd.id, Finished(phase.out));
    forall x, y | x in b && y in b && b[x].pos < b[y].pos && b[y].cmd.op.IsVH() && HasRun(phase', b, y)
      ensures b[x].loc.Finished?
    {
      assert HasRun(phase, book, y);
    }
  }

  lemma BarrierPush(phase: Phase, book: Book, e: Entry)
    requires Barrier(phase, book) && e.cmd.id !in book && e.loc.Queued?
    requires phase.Settled? ==> phase.cmd.id in book
    requires forall id :: id in book ==> book[id].pos < e.pos
    ensures Barrier(phase, book[e.cmd.id := e])
  {
    var b := book[e.cmd.id := e];
    forall x, y | x in b && y in b && b[x].pos < b[y].pos && b[y].cmd.op.IsVH() && HasRun(phase, b, y)
      ensures b[x].loc.Finished?
    {
      assert y in book && x in book;
      assert HasRun(phase, book, y);
    }
  }

  lemma BarrierRun(phase: Phase, book: Book, phase': Phase)
    requires Barrier(phase, book) && !phase.Settled? && phase'.Settled? && phase'.cmd.id in book
    requires forall id :: id in book && book[id].pos < book[phase'.cmd.id].pos ==> book[id].loc.Finished?
    ensures Barrier(phase', book)
  {
    forall x, y | x in book && y in book && book[x].pos < book[y].pos && book[y].cmd.op.IsVH() && HasRun(phase', book, y)
      ensures book[x].loc.Finished?
    {
      if y != phase'.cmd.id { assert HasRun(phase, book, y); }
    }
  }

  lemma HandPush(phase: Phase, front: int, book: Book, e: Entry)
    requires Hand(phase, front, book) && e.cmd.id !in book && e.loc.Queued?
    ensures Hand(phase, front, book[e.cmd.id := e])
  {
  }

  lemma HandTake(phase: Phase, front: int, book: Book, phase': Phase, front': int)
    requires Hand(phase, front, book) && !Holding(phase) && Holding(phase')
    requires phase'.cmd.id in book && book[phase'.cmd.id].cmd == phase'.cmd
    requires phase'.Popped? ==> book[phase'.cmd.id].pos == front' - 1
    ensures Hand(phase', front', SetLoc(book, phase'.cmd.id, Held))
  {
  }

  lemma HandGive(phase: Phase, front: int, book: Book, phase': Phase, front': int, to: Loc)
    requires Hand(phase, front, book) && Holding(phase) && !Holding(phase') && !to.Held?
    ensures Hand(phase', front', SetLoc(book, phase.cmd.id, to))
  {
  }

  lemma HandSwap(phase: Phase, front: int, book: Book, phase': Phase)
    requires Hand(phase, front, book) && phase.Popped? && phase'.Settled? && phase'.cmd == phase.cmd
    ensures Hand(phase', front, book)
  {
  }

  // ---- every step keeps the invariant ----

  lemma IssueKeeps(env: Env, s: State, t: Tid, op: Op)
    requires Inv(env, s) && CanIssue(env, s, t, op)
    ensures Inv(env, DoIssue(s, t, op))
  {
    hide Tickets, Backward, Queue, Hand, Flight, Wire, Slotted, Books, Issued, Sessions, Fifo, Barrier;
    var c := Command(s.seqNo, op);
    TicketsIssue(s.hist.pushed, s.hist.book, s.seqNo, s.pending, t, c);
    BackwardIssue(s.hist.pushed, s.hist.book, s.seqNo, s.pending, t, c);
    BooksRem(s.ledger, s.hist.book, c.id);
    IssuedIssue(s.ledger.rem, s.pending, s.hist.book, t, c);
  }

  lemma ForgetKeeps(env: Env, s: State, t: Tid)
    requires Inv(env, s) && CanForget(s, t)
    ensures Inv(env, DoForget(s, t))
  {
    hide Queue, Hand, Flight, Wire, Slotted, Books, Issued, Sessions, Fifo, Barrier;
    BooksRem(s.ledger, s.hist.book, s.pending[t].cmd.id);
    IssuedForget(s.ledger.rem, s.pending, s.hist.book, t);
  }

  lemma LockKeeps(env: Env, s: State, t: Tid)
    requires Inv(env, s)
    ensures CanLock(s, t) ==> Inv(env, DoLock(s, t))
    ensures CanUnlock(s, t) ==> Inv(env, DoUnlock(s))
  {
    hide Tickets, Backward, Queue, Hand, Flight, Wire, Slotted, Books, Issued, Fifo, Barrier;
  }

  lemma PushReady(env: Env, s: State, tid: Tid)
    requires Inv(env, s) && CanPush(s, tid)
    ensures var c := s.pending[tid].cmd; c.id !in s.hist.book && (c.id in s.ledger.rem <==> !c.op.Nowait())
    ensures forall id :: id in s.hist.book ==> s.hist.book[id].pos < |s.hist.pushed|
    ensures Holding(s.phase) ==> s.phase.cmd.id in s.hist.book
  {
    hide Backward, Queue, Flight, Wire, Slotted, Books, Sessions, Fifo, Barrier;
  }

  lemma PushKeeps(env: Env, s: State, tid: Tid)
    requires Inv(env, s) && CanPush(s, tid)
    ensures Inv(env, DoPush(s, tid))
  {
    hide Tickets, Backward, Queue, Hand, Flight, Wire, Slotted, Books, Issued, Sessions, Fifo, Barrier;
    PushReady(env, s, tid);
    var c := s.pending[tid].cmd;
    var p := Push(c, tid, s.session);
    var e := Entry(c, |s.hist.pushed|, Queued);
    TicketsPush(s.hist.pushed, s.hist.book, s.seqNo, s.pending, tid, s.session);
    BackwardPush(|s.hist.pushed|, s.hist.book, s.pending, tid);
    QueuePush(s.request, s.hist.pushed, s.hist.book, p);
    HandPush(s.phase, Front(s), s.hist.book, e);
    FlightPush(s.inflight, s.nextReq, s.hist.book, e);
    WirePush(env, s.wire, s.served, s.nextReq, Begun(s), s.hist.book, e);
    BooksPush(s.ledger, s.hist.book, e);
    IssuedPush(s.ledger.rem, s.pending, s.hist.book, tid, e);
    SessionsPush(s.hist.pushed, s.depth, s.session, c, tid);
    FifoPush(s.hist.aborted, s.hist.started, Begun(s), s.hist.pushed, p);
    BarrierPush(s.phase, s.hist.book, e);
  }

  lemma CollectKeeps(env: Env, s: State, tid: Tid, id: nat)
    requires Inv(env, s)
    ensures Inv(env, DoCollect(s, tid, id))
  {
    hide Backward, Queue, Hand, Flight, Wire, Slotted, Books, Issued, Sessions, Fifo, Barrier;
    BooksPeek(s.ledger, s.hist.book, id, ToUser(tid));
    IssuedPeek(s.ledger, s.pending, s.hist.book, id, ToUser(tid));
  }

  /** What does not depend on where commands are survives a move. */
  lemma MoveFrame(env: Env, s: State, id: nat, to: Loc)
    requires Inv(env, s) && id in s.hist.book
    ensures var b := SetLoc(s.hist.book, id, to);
      && Tickets(s.hist.pushed, b, s.seqNo, s.pending) && Backward(|s.hist.pushed|, b, s.pending)
      && Wire(env, s.wire, s.served, s.nextReq, Begun(s), b) && Issued(s.ledger.rem, s.pending, b)
  {
    hide Tickets, Backward, Queue, Hand, Flight, Wire, Slotted, Books, Issued, Sessions, Fifo, Barrier;
    var b := SetLoc(s.hist.book, id, to);
    assert SameRoll(s.hist.book, b);
    TicketsRoll(s.hist.pushed, s.hist.book, b, s.seqNo, s.pending);
    BackwardRoll(|s.hist.pushed|, s.hist.book, b, s.pending);
    WireRoll(env, s.wire, s.served, s.nextReq, Begun(s), s.hist.book, b);
    IssuedRoll(s.ledger.rem, s.pending, s.hist.book, b);
  }

  lemma PopKeeps(env: Env, s: State)
    requires Inv(env, s) && CanPop(s)
    ensures Inv(env, DoPop(s))
  {
    hide Tickets, Backward, Hand, Flight, Wire, Slotted, Books, Issued, Sessions, Fifo, Barrier;
    var c := s.request[0];
    QueuePop(s.request, s.hist.pushed, s.hist.book, s.seqNo, s.pending);
    MoveFrame(env, s, c.id, Held);
    HandTake(s.phase, Front(s), s.hist.book, DoPop(s).phase, Front(s) + 1);
    FlightMove(s.inflight, s.nextReq, s.hist.book, c.id, Held);
    BooksMove(s.ledger, s.hist.book, c.id, Held);
    BarrierMove(s.phase, s.hist.book, DoPop(s).phase, c.id, Held);
  }

  /** The command in hand. */
  lemma InHand(env: Env, s: State)
    requires Inv(env, s) && Holding(s.phase)
    ensures var c := s.phase.cmd; c.id in s.hist.book && s.hist.book[c.id].cmd == c && s.hist.book[c.id].loc.Held?
    ensures s.phase.Popped? ==> s.hist.book[s.phase.cmd.id].pos == Front(s) - 1 == Begun(s)
    ensures s.phase.Popped? ==> 0 <= Begun(s) < |s.hist.pushed| && s.hist.pushed[Begun(s)].cmd == s.phase.cmd
  {
    hide Backward, Queue, Flight, Wire, Slotted, Books, Issued, Sessions, Fifo, Barrier;
  }

  lemma PutBackKeeps(env: Env, s: State)
    requires Inv(env, s) && CanPutBack(s)
    ensures Inv(env, DoPutBack(s))
  {
    hide Tickets, Backward, Queue, Hand, Flight, Wire, Slotted, Books, Issued, Sessions, Fifo, Barrier;
    var c := s.phase.cmd;
    InHand(env, s);
    MoveFrame(env, s, c.id, Queued);
    QueuePutBack(s.request, s.hist.pushed, s.hist.book, s.seqNo, s.pending, c);
    HandGive(s.phase, Front(s), s.hist.book, Idle, Front(s) - 1, Queued);
    FlightMove(s.inflight, s.nextReq, s.hist.book, c.id, Queued);
    BooksMove(s.ledger, s.hist.book, c.id, Queued);
    BarrierMove(s.phase, s.hist.book, Idle, c.id, Queued);
  }

  lemma SubmitKeeps(env: Env, s: State)
    requires Inv(env, s) && CanSubmit(s)
    ensures Inv(env, DoSubmit(env, s))
  {
    hide Tickets, Backward, Queue, Hand, Flight, Wire, Slotted, Books, Issued, Sessions, Fifo, Barrier;
    var c := s.phase.cmd;
    var to := Flying(s.nextReq);
    InHand(env, s);
    MoveFrame(env, s, c.id, to);
    QueueMove(s.request, s.hist.pushed, s.hist.book, c.id, to);
    HandGive(s.phase, Front(s), s.hist.book, Top(s.phase.execVH), Front(s), to);
    FlightSubmit(s.inflight, s.nextReq, s.hist.book, c);
    WireSubmit(env, s.wire, s.served, s.nextReq, Begun(s), SetLoc(s.hist.book, c.id, to), c, s.host);
    WireReqs(env, s);
    SlottedSubmit(s.hist.aborted, s.inflight, s.wire, Slot(s.nextReq, c.id, MsgOf(env, c.op, s.host), None), c);
    BooksMove(s.ledger, s.hist.book, c.id, to);
    FifoStart(s.hist.aborted, s.hist.started, Begun(s), s.hist.pushed);
    BarrierMove(s.phase, s.hist.book, Top(s.phase.execVH), c.id, to);
  }

  lemma WireReqs(env: Env, s: State)
    requires Inv(env, s)
    ensures forall k :: 0 <= k < |s.wire| ==> s.wire[k].req < s.nextReq
    ensures forall k :: 0 < k < |s.wire| ==> s.wire[0].req < s.wire[k].req
  {
    hide Tickets, Backward, Queue, Hand, Flight, Slotted, Books, Issued, Sessions, Fifo, Barrier;
  }

  lemma RefuseKeeps(env: Env, s: State)
    requires Inv(env, s) && CanSubmit(s)
    ensures Inv(env, DoRefuse(s))
  {
    hide Tickets, Backward, Queue, Hand, Flight, Wire, Slotted, Books, Issued, Sessions, Fifo, Barrier;
    InHand(env, s);
    HandSwap(s.phase, Front(s), s.hist.book, DoRefuse(s).phase);
    WireMore(env, s.wire, s.served, s.nextReq, Begun(s), Front(s), s.hist.book);
    FifoStart(s.hist.aborted, s.hist.started, Begun(s), s.hist.pushed);
    BarrierSwap(s.phase, s.hist.book, DoRefuse(s).phase);
  }

  lemma BarrierSwap(phase: Phase, book: Book, phase': Phase)
    requires Barrier(phase, book) && !phase.Settled? && phase'.Settled?
    requires phase'.cmd.id in book && !book[phase'.cmd.id].cmd.op.IsVH()
    ensures Barrier(phase', book)
  {
    forall x, y | x in book && y in book && book[x].pos < book[y].pos && book[y].cmd.op.IsVH() && HasRun(phase', book, y)
      ensures book[x].loc.Finished?
    {
      assert HasRun(phase, book, y);
    }
  }

  /** Before a VH command that is about to run, everything is finished. */
  lemma BeforeVH(env: Env, s: State, id: nat)
    requires Inv(env, s) && CanRunVH(s)
    requires id in s.hist.book && s.phase.cmd.id in s.hist.book
    requires s.hist.book[id].pos < s.hist.book[s.phase.cmd.id].pos
    ensures s.hist.book[id].loc.Finished?
  {
    hide Tickets, Backward, Wire, Slotted, Books, Issued, Sessions, Fifo, Barrier;
    match s.hist.book[id].loc
    case Queued =>
    case Held =>
    case Flying(_) =>
    case Finished(_) =>
  }

  lemma OnVHKeeps(env: Env, l: Ledger, host: Mem, cmd: Command, pending: map<Tid, Pend>, book: Book)
    requires cmd.op.IsVH() && Books(l, book) && Issued(l.rem, pending, book)
    requires forall t :: t in pending ==> pending[t].cmd.id !in book
    ensures var a := OnVH(env, l, host, cmd); Books(a.ledger, book) && Issued(a.ledger.rem, pending, book)
  {
    hide Books, Issued;
    if cmd.op.Join? {
      var me := ToCommand(cmd.id);
      PeekOptKeeps(l, cmd.op.write, me, pending, book);
      var w := PeekOpt(l, cmd.op.write, me);
      PeekOptKeeps(w.ledger, cmd.op.call, me, pending, book);
      var c := PeekOpt(w.ledger, cmd.op.call, me);
      PeekOptKeeps(c.ledger, cmd.op.read, me, pending, book);
    }
  }

  lemma PeekOptKeeps(l: Ledger, id: Option<nat>, who: Recipient, pending: map<Tid, Pend>, book: Book)
    requires Books(l, book) && Issued(l.rem, pending, book)
    requires forall t :: t in pending ==> pending[t].cmd.id !in book
    ensures var p := PeekOpt(l, id, who); Books(p.ledger, book) && Issued(p.ledger.rem, pending, book)
  {
    hide Books, Issued;
    if id.Some? {
      BooksPeek(l, book, id.value, who);
      IssuedPeek(l, pending, book, id.value, who);
    }
  }

  lemma OnReplyKeeps(l: Ledger, cmd: Command, reply: Reply, pending: map<Tid, Pend>, book: Book)
    requires Books(l, book) && Issued(l.rem, pending, book)
    requires forall t :: t in pending ==> pending[t].cmd.id !in book
    ensures var a := OnReply(l, cmd, reply); Books(a.ledger, book) && Issued(a.ledger.rem, pending, book)
  {
    hide Books, Issued;
    if cmd.op.Send? || cmd.op.Recv? { PeekOptKeeps(l, cmd.op.prev, ToCommand(cmd.id), pending, book); }
  }

  lemma PendingNew(env: Env, s: State)
    requires Inv(env, s)
    ensures forall t :: t in s.pending ==> s.pending[t].cmd.id !in s.hist.book
  {
    hide Backward, Queue, Hand, Flight, Wire, Slotted, Books, Issued, Sessions, Fifo, Barrier;
  }

  lemma RunVHKeeps(env: Env, s: State)
    requires Inv(env, s) && CanRunVH(s)
    ensures Inv(env, DoRunVH(env, s))
  {
    hide Tickets, Backward, Queue, Hand, Flight, Wire, Slotted, Books, Issued, Sessions, Fifo, Barrier, OnVH;
    var phase := DoRunVH(env, s).phase;
    InHand(env, s);
    PendingNew(env, s);
    OnVHKeeps(env, s.ledger, s.host, s.phase.cmd, s.pending, s.hist.book);
    HandSwap(s.phase, Front(s), s.hist.book, phase);
    WireMore(env, s.wire, s.served, s.nextReq, Begun(s), Front(s), s.hist.book);
    FifoStart(s.hist.aborted, s.hist.started, Begun(s), s.hist.pushed);
    forall id | id in s.hist.book && s.hist.book[id].pos < s.hist.book[phase.cmd.id].pos
      ensures s.hist.book[id].loc.Finished?
    {
      BeforeVH(env, s, id);
    }
    BarrierRun(s.phase, s.hist.book, phase);
  }

  lemma CompleteKeeps(env: Env, s: State)
    requires Inv(env, s) && s.phase.Settled?
    ensures Inv(env, DoComplete(s))
  {
    hide Tickets, Backward, Queue, Hand, Flight, Wire, Slotted, Books, Issued, Sessions, Fifo, Barrier, Insert;
    var id := s.phase.cmd.id;
    var to := Finished(s.phase.out);
    var phase := DoComplete(s).phase;
    InHand(env, s);
    MoveFrame(env, s, id, to);
    QueueMove(s.request, s.hist.pushed, s.hist.book, id, to);
    HandGive(s.phase, Front(s), s.hist.book, phase, Front(s), to);
    FlightMove(s.inflight, s.nextReq, s.hist.book, id, to);
    BooksComplete(s.ledger, s.hist.book, id, s.phase.out, s.phase.keep);
    BarrierComplete(s.phase, s.hist.book, phase);
  }

  lemma ServeKeeps(env: Env, s: State, f: Fault)
    requires Inv(env, s) && CanServe(s, f)
    ensures Inv(env, DoServe(env, s, f))
  {
    hide Tickets, Backward, Queue, Hand, Flight, Wire, Slotted, Books, Issued, Sessions, Fifo, Barrier, Handle;
    var reply := DoServe(env, s, f).wire[s.served].reply.value;
    ServeGood(env, s, f);
    WireServe(env, s.wire, s.served, s.nextReq, Begun(s), s.hist.book, reply);
    SlottedServe(s.hist.aborted, s.inflight, s.wire, s.served, reply);
  }

  lemma ServeGood(env: Env, s: State, f: Fault)
    requires Inv(env, s) && CanServe(s, f)
    ensures s.wire[s.served].id in s.hist.book
    ensures var r := DoServe(env, s, f).wire[s.served].reply.value;
      r.Exc? || GoodReply(env, s.hist.book[s.wire[s.served].id].cmd.op, r)
  {
    hide Tickets, Backward, Queue, Hand, Flight, Slotted, Books, Issued, Sessions, Fifo, Barrier, Handle, GoodReply, MsgFits;
    assert SlotOk(env, s.wire[s.served], false, s.hist.book);
    FittingReply(env, s.hist.book[s.wire[s.served].id].cmd.op, s.ve, s.wire[s.served].msg);
  }

  /** The oldest slot: its command, and that everything before that command is finished. */
  lemma OldestReply(env: Env, s: State)
    requires Inv(env, s) && CanReceive(s) && s.wire[0].req in s.inflight
    ensures var c := s.inflight[s.wire[0].req];
      && c.id in s.hist.book && s.hist.book[c.id].cmd == c && s.hist.book[c.id].loc.Flying? && !c.op.IsVH()
      && c.id == s.wire[0].id
      && (forall id :: id in s.hist.book && s.hist.book[id].pos < s.hist.book[c.id].pos ==> s.hist.book[id].loc.Finished?)
  {
    hide Tickets, Backward, Books, Issued, Sessions, Fifo, Barrier, SlotOk;
  }

  lemma ReceiveKeeps(env: Env, s: State)
    requires Inv(env, s) && CanReceive(s) && s.wire[0].req in s.inflight
    ensures Inv(env, DoReceive(s))
  {
    hide Tickets, Backward, Queue, Hand, Flight, Wire, Slotted, Books, Issued, Sessions, Fifo, Barrier, OnReply, HostEffect;
    var r := s.wire[0].req;
    var c := s.inflight[r];
    var phase := DoReceive(s).phase;
    OldestReply(env, s);
    MoveFrame(env, s, c.id, Held);
    QueueMove(s.request, s.hist.pushed, s.hist.book, c.id, Held);
    HandTake(s.phase, Front(s), s.hist.book, phase, Front(s));
    FlightLand(s.inflight, s.nextReq, s.hist.book, r);
    WireDrop(env, s.wire, s.served, s.nextReq, Begun(s), SetLoc(s.hist.book, c.id, Held));
    WireReqs(env, s);
    SlottedDrop(s.hist.aborted, s.inflight, s.wire);
    BooksMove(s.ledger, s.hist.book, c.id, Held);
    PendingNew(env, s);
    OnReplyKeeps(s.ledger, c, s.wire[0].reply.value, s.pending, SetLoc(s.hist.book, c.id, Held));
    BarrierMove(s.phase, s.hist.book, phase, c.id, Held);
  }

  /** As long as there was no abort, every reply finds its command. */
  lemma ReplyHasCommand(env: Env, s: State)
    requires Inv(env, s) && CanReceive(s) && s.wire[0].req !in s.inflight
    ensures s.hist.aborted
    ensures Inv(env, DoReceive(s))
  {
    hide Tickets, Backward, Queue, Hand, Flight, Wire, Books, Issued, Sessions, Fifo, Barrier;
    assert s.hist.aborted;
    SlottedDrop(s.hist.aborted, s.inflight, s.wire) by { WireReqs(env, s); }
    WireDrop(env, s.wire, s.served, s.nextReq, Begun(s), s.hist.book);
    assert s.inflight - {s.wire[0].req} == s.inflight;
    IdleTop(s, Idle);
  }

  /** Outside the hands of the progress loop, what is not finished is queued or in flight. */
  lemma OutstandingIs(env: Env, s: State)
    requires Inv(env, s) && !Holding(s.phase)
    ensures forall id :: id in Outstanding(s) ==> id in s.hist.book
    ensures forall id :: id in s.hist.book ==> (id in Outstanding(s) <==> !s.hist.book[id].loc.Finished?)
  {
    hide Backward, Wire, Slotted, Books, Issued, Sessions, Fifo, Barrier;
    forall id | id in s.hist.book && s.hist.book[id].loc.Queued? ensures id in IdsOf(s.request) {
      var k := s.hist.book[id].pos - Front(s);
      assert s.request[k].id == id;
    }
  }

  lemma CancelBook(env: Env, s: State)
    requires Inv(env, s) && !Holding(s.phase)
    ensures var t := DoCancelAll(s);
      && SameRoll(s.hist.book, t.hist.book)
      && (forall id :: id in t.hist.book ==>
            t.hist.book[id].loc == if s.hist.book[id].loc.Finished? then s.hist.book[id].loc else Finished(CANCELLED))
  {
    hide Tickets, Backward, Queue, Hand, Flight, Wire, Slotted, Books, Issued, Sessions, Fifo, Barrier;
    OutstandingIs(env, s);
  }

  lemma BooksCancel(env: Env, s: State)
    requires Inv(env, s) && !Holding(s.phase)
    ensures Books(DoCancelAll(s).ledger, DoCancelAll(s).hist.book)
  {
    hide Tickets, Backward, Queue, Hand, Flight, Wire, Slotted, Issued, Sessions, Fifo, Barrier;
    OutstandingIs(env, s);
  }

  lemma CancelKeeps(env: Env, s: State)
    requires Inv(env, s) && !Holding(s.phase)
    ensures Inv(env, DoCancelAll(s))
  {
    hide Tickets, Backward, Queue, Hand, Flight, Wire, Slotted, Books, Issued, Sessions, Barrier, DoCancelAll;
    CancelBook(env, s);
    BooksCancel(env, s);
    CancelFields(s);
    var t := DoCancelAll(s);
    var b := t.hist.book;
    AllFinished(Front(t), b, s.nextReq, s.wire);
    TicketsRoll(s.hist.pushed, s.hist.book, b, s.seqNo, s.pending);
    BackwardRoll(|s.hist.pushed|, s.hist.book, b, s.pending);
    WireRoll(env, s.wire, s.served, s.nextReq, Begun(s), s.hist.book, b);
    WireMore(env, s.wire, s.served, s.nextReq, Begun(s), |s.hist.pushed|, b);
    IssuedRoll(s.ledger.rem, s.pending, s.hist.book, b);
    QueueCancel(s.hist.pushed, b, s.seqNo, s.pending);
  }

  /** What cancelAll leaves as it was. */
  lemma CancelFields(s: State)
    ensures var t := DoCancelAll(s);
      && t == s.(phase := Idle, request := [], inflight := map[], exited := true, ledger := t.ledger, hist := t.hist)
      && t.ledger.rem == s.ledger.rem
      && t.hist == s.hist.(clean := false, aborted := true, book := t.hist.book)
  {
    hide Cancel, Outstanding;
  }

  /** A book of finished commands suits an engine that holds nothing. */
  lemma AllFinished(front: int, book: Book, nextReq: nat, wire: seq<Slot>)
    requires forall id :: id in book ==> book[id].loc.Finished?
    ensures Hand(Idle, front, book) && Flight(map[], nextReq, book) && Slotted(true, map[], wire) && Barrier(Idle, book)
  {
  }

  lemma QueueCancel(pushed: seq<Push>, book: Book, seqNo: nat, pending: map<Tid, Pend>)
    requires Tickets(pushed, book, seqNo, pending) && forall id :: id in book ==> book[id].loc.Finished?
    ensures Queue([], pushed, book)
  {
  }

  /** Every step keeps the invariant. */
  lemma StepKeeps(env: Env, s: State, st: Step)
    requires Inv(env, s) && Enabled(env, s, st)
    ensures Inv(env, Next(env, s, st))
  {
    hide Tickets, Backward, Queue, Hand, Flight, Wire, Slotted, Books, Issued, Sessions, Fifo, Barrier;
    match st
    case Issue(t, op) => IssueKeeps(env, s, t, op);
    case Forget(t) => ForgetKeeps(env, s, t);
    case Lock(t) => LockKeeps(env, s, t);
    case Unlock(t) => LockKeeps(env, s, t);
    case PushReq(t) => PushKeeps(env, s, t);
    case Collect(t, id) => CollectKeeps(env, s, t, id);
    case HostWrite(_, _) =>
    case Enter(_) => IdleTop(s, Next(env, s, st).phase);
    case Leave => IdleTop(s, Idle);
    case Receive => if s.wire[0].req in s.inflight { ReceiveKeeps(env, s); } else { ReplyHasCommand(env, s); }
    case Complete => CompleteKeeps(env, s);
    case Pop => PopKeeps(env, s);
    case PutBack => PutBackKeeps(env, s);
    case RunVH => RunVHKeeps(env, s);
    case Submit => SubmitKeeps(env, s);
    case Refuse => RefuseKeeps(env, s);
    case Abort => CancelKeeps(env, s);
    case PeerDeath => CancelKeeps(env, s);
    case Serve(f) => ServeKeeps(env, s, f);
  }

  lemma IdleTop(s: State, phase: Phase)
    requires Hand(s.phase, Front(s), s.hist.book) && Barrier(s.phase, s.hist.book)
    requires !Holding(s.phase) && !Holding(phase)
    ensures Hand(phase, Front(s), s.hist.book) && Barrier(phase, s.hist.book)
  {
    forall a, b | a in s.hist.book && b in s.hist.book && s.hist.book[a].pos < s.hist.book[b].pos
      && s.hist.book[b].cmd.op.IsVH() && HasRun(phase, s.hist.book, b)
      ensures s.hist.book[a].loc.Finished?
    {
      assert HasRun(s.phase, s.hist.book, b);
    }
  }

  lemma {:induction false} RunKeeps(env: Env, s: State, steps: seq<Step>)
    requires Inv(env, s) && Run(env, s, steps).Some?
    ensures Inv(env, Run(env, s, steps).value)
  {
    hide Inv;
    if steps != [] {
      var front := steps[..|steps| - 1];
      RunKeeps(env, s, front);
      StepKeeps(env, Run(env, s, front).value, steps[|steps| - 1]);
    }
  }

  lemma ReachableInv(env: Env, s: State)
    requires Reachable(env, s)
    ensures Inv(env, s)
  {
    hide Inv, Init;
    var s0, steps :| Init(s0) && Run(env, s0, steps) == Some(s);
    InitInv(env, s0);
    RunKeeps(env, s0, steps);
  }
}
