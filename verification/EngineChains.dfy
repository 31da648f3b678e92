/** Results that pass from one command to another: chained transfers and joins. */
module EngineChains {
  import opened Memory
  import opened Protocol
  import opened Engine
  import opened EngineInv

  /** What command `id` saw when it picked up the result of `p`. */
  ghost predicate Picked(book: Book, delivered: map<nat, Recipient>, p: Option<nat>, id: nat, st: Status) {
    match p
    case None => st == Ok
    case Some(x) =>
      && x in book && book[x].loc.Finished? && x in delivered
      && st == if delivered[x] == ToCommand(id) then book[x].loc.out.res.status else Error
  }

  ghost predicate PickedValue(book: Book, delivered: map<nat, Recipient>, p: Option<nat>, id: nat, v: Word) {
    match p
    case None => v == 0
    case Some(x) =>
      && x in book && book[x].loc.Finished? && x in delivered
      && v == if delivered[x] == ToCommand(id) then book[x].loc.out.res.retval else 0
  }

  function First(w: Status, c: Status, r: Status): Status { if w != Ok then w else if c != Ok then c else r }

  ghost predicate JoinVerdict(book: Book, delivered: map<nat, Recipient>, id: nat, op: Op, res: Result)
    requires op.Join?
  {
    exists w, c, r ::
      && Picked(book, delivered, op.write, id, w) && Picked(book, delivered, op.call, id, c)
      && Picked(book, delivered, op.read, id, r) && res.status == First(w, c, r)
      && PickedValue(book, delivered, op.call, id, res.retval)
  }

  /** How the outcome of a command follows from its fate and from what it picked up. */
  ghost predicate Verdict(book: Book, delivered: map<nat, Recipient>, id: nat, op: Op, out: Outcome) {
    && out.res.status != Unfinished
    && match out.fate
       case Refused => !op.IsVH() && out.res == Result(Error, TWO64 - 1)
       case Cancelled => out.res == Result(Error, 0)
       case Raised =>
         && !op.IsVH() && out.res.status == Exception
         && (op.Send? ==> out.res.retval == TWO64 - 12) && (op.Recv? ==> out.res.retval == TWO64 - 13)
       case Answered =>
         && !op.IsVH()
         && if op.Send? || op.Recv?
            then Picked(book, delivered, op.prev, id, out.res.status) && PickedValue(book, delivered, op.prev, id, out.res.retval)
            else out.res.status == Ok
       case Ran =>
         && op.IsVH()
         && if op.Join? then JoinVerdict(book, delivered, id, op, out.res) else out.res.status == Ok
  }

  ghost predicate Verdicts(phase: Phase, book: Book, delivered: map<nat, Recipient>) {
    && (forall id :: id in book && book[id].loc.Finished? ==>
          Verdict(book, delivered, id, book[id].cmd.op, book[id].loc.out))
    && (phase.Settled? && phase.cmd.id in book ==>
          Verdict(book, delivered, phase.cmd.id, phase.cmd.op, phase.out))
  }

  /** Only a command that has run has picked anything up, and only what it refers to. */
  ghost predicate Recipients(phase: Phase, book: Book, delivered: map<nat, Recipient>) {
    forall x :: x in delivered && delivered[x].ToCommand? ==>
      var y := delivered[x].id;
      y in book && HasRun(phase, book, y) && x in book[y].cmd.op.Refs()
  }

  /** The commands that release the call's stack buffer: a join, and a call that is alone. */
  predicate Releases(op: Op) { op.Join? || (op.Call? && !op.keep) }

  /** A stack buffer is released by a command that has run, and once. */
  ghost predicate Freed(phase: Phase, book: Book, freed: seq<nat>) {
    && (forall i :: 0 <= i < |freed| ==>
          freed[i] in book && HasRun(phase, book, freed[i]) && Releases(book[freed[i]].cmd.op))
    && (forall i, j :: 0 <= i < j < |freed| ==> freed[i] != freed[j])
  }

  ghost predicate ChainInv(s: State) {
    && Verdicts(s.phase, s.hist.book, s.ledger.delivered)
    && Recipients(s.phase, s.hist.book, s.ledger.delivered)
    && Freed(s.phase, s.hist.book, s.hist.freed)
  }

  /** Finished entries and deliveries stay as they are. */
  ghost predicate Grows(a: Book, da: map<nat, Recipient>, b: Book, db: map<nat, Recipient>) {
    && (forall id :: id in a ==> id in b && b[id].cmd == a[id].cmd && (a[id].loc.Finished? ==> b[id].loc == a[id].loc))
    && (forall x :: x in da ==> x in db && db[x] == da[x])
  }

  lemma VerdictGrows(a: Book, da: map<nat, Recipient>, b: Book, db: map<nat, Recipient>, id: nat, op: Op, out: Outcome)
    requires Grows(a, da, b, db) && Verdict(a, da, id, op, out)
    ensures Verdict(b, db, id, op, out)
  {
    if out.fate.Ran? && op.Join? {
      var w, c, r :|
        && Picked(a, da, op.write, id, w) && Picked(a, da, op.call, id, c)
        && Picked(a, da, op.read, id, r) && out.res.status == First(w, c, r)
        && PickedValue(a, da, op.call, id, out.res.retval);
      assert Picked(b, db, op.write, id, w) && Picked(b, db, op.call, id, c) && Picked(b, db, op.read, id, r);
      assert JoinVerdict(b, db, id, op, out.res);
    }
  }

  lemma PeekGrows(l: Ledger, book: Book, p: Option<nat>, who: Recipient)
    requires Books(l, book)
    ensures Grows(book, l.delivered, book, PeekOpt(l, p, who).ledger.delivered)
  {
  }

  /** Picking up a finished, waitable request: its status if it is still there, ERROR otherwise. */
  lemma PeekPicks(l: Ledger, book: Book, p: Option<nat>, id: nat)
    requires Books(l, book)
    requires p.Some? ==> p.value in book && book[p.value].loc.Finished? && !book[p.value].cmd.op.Nowait()
    requires p.Some? && p.value in l.delivered ==> l.delivered[p.value] != ToCommand(id)
    ensures var k := PeekOpt(l, p, ToCommand(id));
      Picked(book, k.ledger.delivered, p, id, k.status) && PickedValue(book, k.ledger.delivered, p, id, k.retval)
  {
  }

  /** Delivery to `who` of `p` is the only change. */
  lemma PeekDelivers(l: Ledger, p: Option<nat>, who: Recipient)
    ensures var d := PeekOpt(l, p, who).ledger.delivered;
      forall x :: x in d ==> (x in l.delivered && d[x] == l.delivered[x]) || (p == Some(x) && d[x] == who)
  {
  }

  lemma PickedGrows(a: Book, da: map<nat, Recipient>, b: Book, db: map<nat, Recipient>, p: Option<nat>, id: nat, st: Status)
    requires Grows(a, da, b, db) && Picked(a, da, p, id, st)
    ensures Picked(b, db, p, id, st)
  {
  }

  lemma PickedValueGrows(a: Book, da: map<nat, Recipient>, b: Book, db: map<nat, Recipient>, p: Option<nat>, id: nat, v: Word)
    requires Grows(a, da, b, db) && PickedValue(a, da, p, id, v)
    ensures PickedValue(b, db, p, id, v)
  {
  }

  /** Finished results are final, so a command never picks up UNFINISHED. */
  ghost predicate Final(book: Book) {
    forall x :: x in book && book[x].loc.Finished? ==> book[x].loc.out.res.status != Unfinished
  }

  /** The parts a command refers to are finished, waitable, and not its own already. */
  ghost predicate Ready(l: Ledger, book: Book, id: nat, op: Op) {
    forall r :: r in op.Refs() ==>
      && r in book && book[r].loc.Finished? && !book[r].cmd.op.Nowait()
      && (r in l.delivered ==> l.delivered[r] != ToCommand(id))
  }

  lemma ReplyVerdict(env: Env, l: Ledger, book: Book, cmd: Command, reply: Reply)
    requires Books(l, book) && Final(book) && Ready(l, book, cmd.id, cmd.op) && !cmd.op.IsVH()
    requires reply.Exc? || GoodReply(env, cmd.op, reply)
    ensures var a := OnReply(l, cmd, reply);
      Verdict(book, a.ledger.delivered, cmd.id, cmd.op, a.out) && Grows(book, l.delivered, book, a.ledger.delivered)
  {
    hide Books;
    if cmd.op.Send? || cmd.op.Recv? {
      PeekGrows(l, book, cmd.op.prev, ToCommand(cmd.id));
      PeekPicks(l, book, cmd.op.prev, cmd.id);
    }
  }

  lemma GrowsTrans(book: Book, a: map<nat, Recipient>, b: map<nat, Recipient>, c: map<nat, Recipient>)
    requires Grows(book, a, book, b) && Grows(book, b, book, c)
    ensures Grows(book, a, book, c)
  {
  }

  /** What a peek of a part does: the part is picked, and stays picked whatever is delivered later. */
  lemma PartPeek(l: Ledger, book: Book, p: Option<nat>, id: nat)
    requires Books(l, book) && Final(book)
    requires p.Some? ==> p.value in book && book[p.value].loc.Finished? && !book[p.value].cmd.op.Nowait()
    requires p.Some? && p.value in l.delivered ==> l.delivered[p.value] != ToCommand(id)
    ensures var k := PeekOpt(l, p, ToCommand(id)); var d := k.ledger.delivered;
      && Books(k.ledger, book) && Grows(book, l.delivered, book, d) && k.status != Unfinished
      && Picked(book, d, p, id, k.status) && PickedValue(book, d, p, id, k.retval)
      && forall x :: x in d ==> (x in l.delivered && d[x] == l.delivered[x]) || (p == Some(x) && d[x] == ToCommand(id))
  {
    hide Books;
    PeekPicks(l, book, p, id);
    PeekGrows(l, book, p, ToCommand(id));
    PeekDelivers(l, p, ToCommand(id));
    PeekBooks(l, book, p, ToCommand(id));
  }

  lemma JoinRun(env: Env, l: Ledger, book: Book, host: Mem, cmd: Command)
    requires cmd.op.Join? && PartsDiffer(cmd.op)
    requires Books(l, book) && Final(book) && Ready(l, book, cmd.id, cmd.op)
    ensures var a := OnVH(env, l, host, cmd);
      Verdict(book, a.ledger.delivered, cmd.id, cmd.op, Outcome(a.res, Ran)) && Grows(book, l.delivered, book, a.ledger.delivered)
  {
    hide Books, Peek, PeekOpt, Grows, Picked, PickedValue, Final;
    var me := ToCommand(cmd.id);
    var op := cmd.op;
    var w := PeekOpt(l, op.write, me);
    PartPeek(l, book, op.write, cmd.id);
    var c := PeekOpt(w.ledger, op.call, me);
    PartPeek(w.ledger, book, op.call, cmd.id);
    var r := PeekOpt(c.ledger, op.read, me);
    PartPeek(c.ledger, book, op.read, cmd.id);
    var d := r.ledger.delivered;
    GrowsTrans(book, w.ledger.delivered, c.ledger.delivered, d);
    GrowsTrans(book, l.delivered, w.ledger.delivered, d);
    PickedGrows(book, w.ledger.delivered, book, d, op.write, cmd.id, w.status);
    PickedGrows(book, c.ledger.delivered, book, d, op.call, cmd.id, c.status);
    PickedValueGrows(book, c.ledger.delivered, book, d, op.call, cmd.id, c.retval);
  }

  lemma PeekBooks(l: Ledger, book: Book, p: Option<nat>, who: Recipient)
    requires Books(l, book)
    ensures Books(PeekOpt(l, p, who).ledger, book)
  {
    hide Books;
    if p.Some? { BooksPeek(l, book, p.value, who); }
  }

  // ---- steps ----

  ghost predicate Advances(p: Phase, a: Book, p': Phase, b: Book) {
    forall y :: y in a && HasRun(p, a, y) ==> y in b && b[y].cmd == a[y].cmd && HasRun(p', b, y)
  }

  lemma VerdictsStep(p: Phase, a: Book, da: map<nat, Recipient>, p': Phase, b: Book, db: map<nat, Recipient>)
    requires Verdicts(p, a, da) && Grows(a, da, b, db)
    requires forall id :: id in b && b[id].loc.Finished? && !(id in a && a[id].loc.Finished?) ==>
      Verdict(b, db, id, b[id].cmd.op, b[id].loc.out)
    requires p'.Settled? && p'.cmd.id in b ==> Verdict(b, db, p'.cmd.id, p'.cmd.op, p'.out)
    ensures Verdicts(p', b, db)
  {
    hide Verdict;
    forall id | id in b && b[id].loc.Finished? ensures Verdict(b, db, id, b[id].cmd.op, b[id].loc.out) {
      if id in a && a[id].loc.Finished? { VerdictGrows(a, da, b, db, id, a[id].cmd.op, a[id].loc.out); }
    }
  }

  lemma RecipientsStep(p: Phase, a: Book, da: map<nat, Recipient>, p': Phase, b: Book, db: map<nat, Recipient>, id: nat)
    requires Recipients(p, a, da) && Advances(p, a, p', b)
    requires forall x :: x in db ==>
      || (x in da && db[x] == da[x]) || db[x].ToUser?
      || (db[x] == ToCommand(id) && id in b && HasRun(p', b, id) && x in b[id].cmd.op.Refs())
    ensures Recipients(p', b, db)
  {
  }

  lemma FreedStep(p: Phase, a: Book, p': Phase, b: Book, freed: seq<nat>)
    requires Freed(p, a, freed) && Advances(p, a, p', b)
    ensures Freed(p', b, freed)
  {
  }

  lemma FreedMore(p: Phase, a: Book, p': Phase, b: Book, freed: seq<nat>, id: nat)
    requires Freed(p, a, freed) && Advances(p, a, p', b)
    requires id in a && !HasRun(p, a, id) && id in b && HasRun(p', b, id) && Releases(b[id].cmd.op)
    ensures Freed(p', b, freed + [id])
  {
  }

  /** A step that gives no command a result and hands none out. */
  lemma QuietStep(s: State, t: State)
    requires ChainInv(s) && t.ledger.delivered == s.ledger.delivered && t.hist.freed == s.hist.freed
    requires Grows(s.hist.book, s.ledger.delivered, t.hist.book, s.ledger.delivered)
    requires forall id :: id in t.hist.book && t.hist.book[id].loc.Finished? ==>
      id in s.hist.book && s.hist.book[id].loc.Finished?
    requires s.phase.Settled? || t.phase.Settled? ==> s.phase == t.phase && s.phase.cmd.id in s.hist.book
    ensures ChainInv(t)
  {
    hide Verdicts, Verdict, Recipients, Freed;
    if t.phase.Settled? { SettledVerdict(s, t); }
    VerdictsStep(s.phase, s.hist.book, s.ledger.delivered, t.phase, t.hist.book, t.ledger.delivered);
    RecipientsStep(s.phase, s.hist.book, s.ledger.delivered, t.phase, t.hist.book, t.ledger.delivered, 0);
    FreedStep(s.phase, s.hist.book, t.phase, t.hist.book, s.hist.freed);
  }

  lemma SettledVerdict(s: State, t: State)
    requires ChainInv(s) && s.phase.Settled? && s.phase.cmd.id in s.hist.book
    requires Grows(s.hist.book, s.ledger.delivered, t.hist.book, t.ledger.delivered)
    ensures Verdict(t.hist.book, t.ledger.delivered, s.phase.cmd.id, s.phase.cmd.op, s.phase.out)
  {
    hide Verdict, Recipients, Freed;
    VerdictGrows(s.hist.book, s.ledger.delivered, t.hist.book, t.ledger.delivered, s.phase.cmd.id, s.phase.cmd.op, s.phase.out);
  }

  predicate Quiet(st: Step) {
    st.Issue? || st.Forget? || st.Lock? || st.Unlock? || st.PushReq? || st.Enter? || st.Leave? || st.Pop?
    || st.PutBack? || st.Submit? || st.Serve? || st.HostWrite?
  }

  /** A quiet step that moves one command. */
  lemma QuietMove(s: State, t: State, id: nat, to: Loc)
    requires ChainInv(s) && t.ledger.delivered == s.ledger.delivered && t.hist.freed == s.hist.freed
    requires id in s.hist.book && !s.hist.book[id].loc.Finished? && !to.Finished?
    requires t.hist.book == SetLoc(s.hist.book, id, to) && !s.phase.Settled? && !t.phase.Settled?
    ensures ChainInv(t)
  {
    hide ChainInv;
    QuietStep(s, t);
  }

  lemma PushChains(env: Env, s: State, tid: Tid)
    requires Inv(env, s) && ChainInv(s) && CanPush(s, tid)
    ensures ChainInv(DoPush(s, tid))
  {
    hide Inv, ChainInv;
    PushReady(env, s, tid);
    if Holding(s.phase) { InHand(env, s); }
    QuietStep(s, DoPush(s, tid));
  }

  lemma QuietKeeps(env: Env, s: State, st: Step)
    requires Inv(env, s) && ChainInv(s) && Enabled(env, s, st) && Quiet(st)
    ensures ChainInv(Next(env, s, st))
  {
    hide Inv, Verdicts, Recipients, Freed, MsgOf, Handle, OpOk, RefsOk, SetLoc;
    if Holding(s.phase) { InHand(env, s); }
    var t := Next(env, s, st);
    match st
    case PushReq(tid) => PushChains(env, s, tid);
    case Pop => HeadQueued(env, s); QuietMove(s, t, s.request[0].id, Held);
    case PutBack => QuietMove(s, t, s.phase.cmd.id, Queued);
    case Submit => QuietMove(s, t, s.phase.cmd.id, Flying(s.nextReq));
    case _ => PhaseOnly(s, t);
  }

  /** The invariant does not look at a phase without a result. */
  lemma PhaseOnly(s: State, t: State)
    requires ChainInv(s) && t.ledger.delivered == s.ledger.delivered && t.hist.freed == s.hist.freed
    requires t.hist.book == s.hist.book && (t.phase == s.phase || (!s.phase.Settled? && !t.phase.Settled?))
    ensures ChainInv(t)
  {
    hide Verdict;
  }

  lemma HeadQueued(env: Env, s: State)
    requires Inv(env, s) && CanPop(s)
    ensures s.request[0].id in s.hist.book && s.hist.book[s.request[0].id].loc.Queued?
  {
    hide Backward, Hand, Flight, Wire, Slotted, Books, Issued, Sessions, Fifo, Barrier;
    assert s.request[0] == s.hist.pushed[Front(s)].cmd;
  }

  lemma CollectChains(env: Env, s: State, tid: Tid, id: nat)
    requires Inv(env, s) && ChainInv(s)
    ensures ChainInv(DoCollect(s, tid, id))
  {
    hide Tickets, Backward, Queue, Hand, Flight, Wire, Slotted, Books, Issued, Sessions, Fifo, Barrier;
    hide Verdicts, Verdict, Recipients, Freed, Peek;
    var t := DoCollect(s, tid, id);
    PeekGrows(s.ledger, s.hist.book, Some(id), ToUser(tid));
    PeekDelivers(s.ledger, Some(id), ToUser(tid));
    if s.phase.Settled? { InHand(env, s); SettledVerdict(s, t); }
    VerdictsStep(s.phase, s.hist.book, s.ledger.delivered, t.phase, t.hist.book, t.ledger.delivered);
    RecipientsStep(s.phase, s.hist.book, s.ledger.delivered, t.phase, t.hist.book, t.ledger.delivered, 0);
  }

  lemma FinalBook(s: State)
    requires ChainInv(s)
    ensures Final(s.hist.book)
  {
  }

  /** Before a command, everything is finished, so what it refers to can be picked up. */
  lemma RefsReady(env: Env, s: State, c: Command)
    requires Inv(env, s) && ChainInv(s) && c.id in s.hist.book && s.hist.book[c.id].cmd == c
    requires !HasRun(s.phase, s.hist.book, c.id)
    requires forall id :: id in s.hist.book && s.hist.book[id].pos < s.hist.book[c.id].pos ==> s.hist.book[id].loc.Finished?
    ensures Ready(s.ledger, s.hist.book, c.id, c.op) && PartsDiffer(c.op)
  {
    hide Tickets, Queue, Hand, Flight, Wire, Slotted, Books, Issued, Sessions, Fifo, Barrier, Verdicts, Freed;
    assert AllBefore(c.op.Refs(), s.hist.book[c.id].pos, s.hist.book);
  }

  lemma ReplyDelivers(l: Ledger, cmd: Command, reply: Reply)
    ensures var d := OnReply(l, cmd, reply).ledger.delivered;
      forall x :: x in d ==> (x in l.delivered && d[x] == l.delivered[x]) || (d[x] == ToCommand(cmd.id) && x in cmd.op.Refs())
  {
    hide Peek;
    if cmd.op.Send? || cmd.op.Recv? { PeekDelivers(l, cmd.op.prev, ToCommand(cmd.id)); }
  }

  lemma VHDelivers(env: Env, l: Ledger, host: Mem, cmd: Command)
    requires cmd.op.IsVH()
    ensures var d := OnVH(env, l, host, cmd).ledger.delivered;
      forall x :: x in d ==> (x in l.delivered && d[x] == l.delivered[x]) || (d[x] == ToCommand(cmd.id) && x in cmd.op.Refs())
  {
    hide Peek;
    if cmd.op.Join? {
      var me := ToCommand(cmd.id);
      PeekDelivers(l, cmd.op.write, me);
      var w := PeekOpt(l, cmd.op.write, me);
      PeekDelivers(w.ledger, cmd.op.call, me);
      var c := PeekOpt(w.ledger, cmd.op.call, me);
      PeekDelivers(c.ledger, cmd.op.read, me);
    }
  }

  /** The reply at the head of the wire fits the command it answers. */
  lemma ReplyFits(env: Env, s: State)
    requires Inv(env, s) && CanReceive(s) && s.wire[0].req in s.inflight
    ensures var c := s.inflight[s.wire[0].req]; var reply := s.wire[0].reply.value;
      reply.Exc? || GoodReply(env, c.op, reply)
  {
    hide Tickets, Backward, Queue, Hand, Flight, Slotted, Books, Issued, Sessions, Fifo, Barrier, GoodReply, MsgFits;
    OldestReply(env, s);
    assert SlotOk(env, s.wire[0], true, s.hist.book);
  }

  lemma ReceiveChains(env: Env, s: State)
    requires Inv(env, s) && ChainInv(s) && CanReceive(s)
    ensures ChainInv(DoReceive(s))
  {
    hide Tickets, Backward, Queue, Hand, Flight, Wire, Slotted, Books, Issued, Sessions, Fifo, Barrier;
    hide Verdicts, Verdict, Recipients, Freed, OnReply, HostEffect, Ready, GoodReply, Final;
    var t := DoReceive(s);
    if s.wire[0].req !in s.inflight {
      QuietStep(s, t);
    } else {
      var c := s.inflight[s.wire[0].req];
      var reply := s.wire[0].reply.value;
      OldestReply(env, s);
      ReplyFits(env, s);
      RefsReady(env, s, c);
      FinalBook(s);
      ReplyVerdict(env, s.ledger, s.hist.book, c, reply);
      ReplyDelivers(s.ledger, c, reply);
      VerdictGrows(s.hist.book, t.ledger.delivered, t.hist.book, t.ledger.delivered, c.id, c.op, t.phase.out);
      VerdictsStep(s.phase, s.hist.book, s.ledger.delivered, t.phase, t.hist.book, t.ledger.delivered);
      RecipientsStep(s.phase, s.hist.book, s.ledger.delivered, t.phase, t.hist.book, t.ledger.delivered, c.id);
      FreedStep(s.phase, s.hist.book, t.phase, t.hist.book, s.hist.freed);
      if Releases(c.op) { FreedMore(s.phase, s.hist.book, t.phase, t.hist.book, s.hist.freed, c.id); }
    }
  }

  lemma RunVHChains(env: Env, s: State)
    requires Inv(env, s) && ChainInv(s) && CanRunVH(s)
    ensures ChainInv(DoRunVH(env, s))
  {
    hide Tickets, Backward, Queue, Hand, Flight, Wire, Slotted, Books, Issued, Sessions, Fifo, Barrier;
    hide Verdicts, Recipients, Freed, OnVH, VhEffect, Ready, Final;
    var t := DoRunVH(env, s);
    var c := s.phase.cmd;
    InHand(env, s);
    forall id | id in s.hist.book && s.hist.book[id].pos < s.hist.book[c.id].pos ensures s.hist.book[id].loc.Finished? {
      BeforeVH(env, s, id);
    }
    RefsReady(env, s, c);
    FinalBook(s);
    RunVerdict(env, s.ledger, s.hist.book, s.host, c);
    VHDelivers(env, s.ledger, s.host, c);
    VerdictsStep(s.phase, s.hist.book, s.ledger.delivered, t.phase, t.hist.book, t.ledger.delivered);
    RecipientsStep(s.phase, s.hist.book, s.ledger.delivered, t.phase, t.hist.book, t.ledger.delivered, c.id);
    FreedStep(s.phase, s.hist.book, t.phase, t.hist.book, s.hist.freed);
    if Releases(c.op) { FreedMore(s.phase, s.hist.book, t.phase, t.hist.book, s.hist.freed, c.id); }
  }

  lemma RunVerdict(env: Env, l: Ledger, book: Book, host: Mem, cmd: Command)
    requires cmd.op.IsVH() && PartsDiffer(cmd.op)
    requires Books(l, book) && Final(book) && Ready(l, book, cmd.id, cmd.op)
    ensures var a := OnVH(env, l, host, cmd);
      Verdict(book, a.ledger.delivered, cmd.id, cmd.op, Outcome(a.res, Ran)) && Grows(book, l.delivered, book, a.ledger.delivered)
  {
    hide Books, Final, Ready, Peek;
    if cmd.op.Join? { JoinRun(env, l, book, host, cmd); }
  }

  lemma RefuseChains(env: Env, s: State)
    requires Inv(env, s) && ChainInv(s) && CanSubmit(s)
    ensures ChainInv(DoRefuse(s))
  {
    hide Tickets, Backward, Queue, Hand, Flight, Wire, Slotted, Books, Issued, Sessions, Fifo, Barrier;
    hide Verdicts, Recipients, Freed;
    var t := DoRefuse(s);
    InHand(env, s);
    VerdictsStep(s.phase, s.hist.book, s.ledger.delivered, t.phase, t.hist.book, t.ledger.delivered);
    RecipientsStep(s.phase, s.hist.book, s.ledger.delivered, t.phase, t.hist.book, t.ledger.delivered, 0);
    FreedStep(s.phase, s.hist.book, t.phase, t.hist.book, s.hist.freed);
  }

  lemma CompleteChains(env: Env, s: State)
    requires Inv(env, s) && ChainInv(s) && s.phase.Settled?
    ensures ChainInv(DoComplete(s))
  {
    hide Tickets, Backward, Queue, Hand, Flight, Wire, Slotted, Books, Issued, Sessions, Fifo, Barrier;
    hide Verdicts, Verdict, Recipients, Freed, Insert;
    var t := DoComplete(s);
    InHand(env, s);
    SettledVerdict(s, t);
    VerdictsStep(s.phase, s.hist.book, s.ledger.delivered, t.phase, t.hist.book, t.ledger.delivered);
    RecipientsStep(s.phase, s.hist.book, s.ledger.delivered, t.phase, t.hist.book, t.ledger.delivered, 0);
    FreedStep(s.phase, s.hist.book, t.phase, t.hist.book, s.hist.freed);
  }

  lemma CancelChains(env: Env, s: State)
    requires Inv(env, s) && ChainInv(s) && !Holding(s.phase)
    ensures ChainInv(DoCancelAll(s))
  {
    hide Tickets, Backward, Queue, Hand, Flight, Wire, Slotted, Books, Issued, Sessions, Fifo, Barrier;
    hide Verdicts, Recipients, Freed, Outstanding;
    var t := DoCancelAll(s);
    CancelBook(env, s);
    VerdictsStep(s.phase, s.hist.book, s.ledger.delivered, t.phase, t.hist.book, t.ledger.delivered);
    RecipientsStep(s.phase, s.hist.book, s.ledger.delivered, t.phase, t.hist.book, t.ledger.delivered, 0);
    FreedStep(s.phase, s.hist.book, t.phase, t.hist.book, s.hist.freed);
  }

  lemma ChainStep(env: Env, s: State, st: Step)
    requires Inv(env, s) && ChainInv(s) && Enabled(env, s, st)
    ensures ChainInv(Next(env, s, st))
  {
    hide Inv, ChainInv;
    if Quiet(st) { QuietKeeps(env, s, st); }
    else {
      match st
      case Collect(t, id) => CollectChains(env, s, t, id);
      case Receive => ReceiveChains(env, s);
      case Complete => CompleteChains(env, s);
      case RunVH => RunVHChains(env, s);
      case Refuse => RefuseChains(env, s);
      case Abort => CancelChains(env, s);
      case PeerDeath => CancelChains(env, s);
    }
  }

  lemma {:induction false} ChainRun(env: Env, s: State, steps: seq<Step>)
    requires Inv(env, s) && ChainInv(s) && Run(env, s, steps).Some?
    ensures ChainInv(Run(env, s, steps).value)
  {
    hide Inv, ChainInv;
    if steps != [] {
      var front := steps[..|steps| - 1];
      RunKeeps(env, s, front);
      ChainRun(env, s, front);
      ChainStep(env, Run(env, s, front).value, steps[|steps| - 1]);
    }
  }

  lemma ReachableChains(env: Env, s: State)
    requires Reachable(env, s)
    ensures Inv(env, s) && ChainInv(s)
  {
    hide Inv;
    var s0, steps :| Init(s0) && Run(env, s0, steps) == Some(s);
    InitInv(env, s0);
    RunKeeps(env, s0, steps);
    ChainRun(env, s0, steps);
  }
}
