/** What the engine guarantees in every reachable state and over every run. */
module EngineTheorems {
  import opened Memory
  import opened Protocol
  import opened Engine
  import opened EngineInv
  import opened EngineChains

  // ---- conservation ----

  function FlightIds(s: State): set<nat> { IdsAt(s.inflight) }

  function HandIds(s: State): set<nat> { if Holding(s.phase) then {s.phase.cmd.id} else {} }

  /** Somewhere between the request queue and the completion map. */
  predicate InSystem(s: State, id: nat) {
    id in IdsOf(s.request) || id in HandIds(s) || id in FlightIds(s) || id in s.ledger.completion
  }

  /** The containers never share an id, and the owed ids are exactly those being submitted and the
  waitable ones in a container: no command is lost and none is duplicated. */
  lemma Conservation(env: Env, s: State)
    requires Reachable(env, s)
    ensures IdsOf(s.request) !! FlightIds(s) !! HandIds(s) !! s.ledger.completion.Keys
    ensures forall i, j :: 0 <= i < j < |s.request| ==> s.request[i].id != s.request[j].id
    ensures forall p, q :: p in s.inflight && q in s.inflight && p != q ==> s.inflight[p].id != s.inflight[q].id
    ensures forall id :: id in s.ledger.rem <==>
      Owed(s.pending, id) || (InSystem(s, id) && id in s.hist.book && !s.hist.book[id].cmd.op.Nowait())
    ensures forall id :: id in s.hist.book && !InSystem(s, id) ==> id in s.ledger.delivered || s.hist.book[id].cmd.op.Nowait()
  {
    hide Reachable, Run, Inv;
    ReachableInv(env, s);
    forall id | id in s.hist.book ensures WhereIs(s, id) { Located(env, s, id); }
    Containers(env, s);
    Distinct(env, s);
    forall id ensures id in s.ledger.rem <==>
      Owed(s.pending, id) || (InSystem(s, id) && id in s.hist.book && !s.hist.book[id].cmd.op.Nowait())
    {
      OwedExactly(env, s, id);
    }
  }

  ghost predicate WhereIs(s: State, id: nat)
    requires id in s.hist.book
  {
    match s.hist.book[id].loc
    case Queued => id in IdsOf(s.request)
    case Held => id in HandIds(s)
    case Flying(_) => id in FlightIds(s)
    case Finished(_) => id in s.ledger.completion || id in s.ledger.delivered || s.hist.book[id].cmd.op.Nowait()
  }

  lemma Located(env: Env, s: State, id: nat)
    requires Inv(env, s) && id in s.hist.book
    ensures WhereIs(s, id)
  {
    hide Backward, Wire, Slotted, Issued, Sessions, Fifo, Barrier;
    if s.hist.book[id].loc.Queued? {
      var k := s.hist.book[id].pos - Front(s);
      assert s.request[k].id == id;
    }
  }

  /** Each container holds only commands that are there according to the book. */
  lemma Containers(env: Env, s: State)
    requires Inv(env, s)
    ensures forall id :: id in IdsOf(s.request) ==> id in s.hist.book && s.hist.book[id].loc.Queued?
    ensures forall id :: id in FlightIds(s) ==> id in s.hist.book && s.hist.book[id].loc.Flying?
    ensures forall id :: id in HandIds(s) ==> id in s.hist.book && s.hist.book[id].loc.Held?
    ensures forall id :: id in s.ledger.completion ==> id in s.hist.book && s.hist.book[id].loc.Finished?
    ensures forall id :: id in s.ledger.delivered ==>
      id in s.hist.book && s.hist.book[id].loc.Finished? && id !in s.ledger.completion
  {
    hide Backward, Wire, Slotted, Issued, Sessions, Fifo, Barrier;
  }

  lemma Distinct(env: Env, s: State)
    requires Inv(env, s)
    ensures forall i, j :: 0 <= i < j < |s.request| ==> s.request[i].id != s.request[j].id
    ensures forall p, q :: p in s.inflight && q in s.inflight && p != q ==> s.inflight[p].id != s.inflight[q].id
  {
    hide Backward, Hand, Wire, Slotted, Books, Issued, Sessions, Fifo, Barrier;
    forall i, j | 0 <= i < j < |s.request| ensures s.request[i].id != s.request[j].id {
      assert s.request[i] == s.hist.pushed[Front(s) + i].cmd && s.request[j] == s.hist.pushed[Front(s) + j].cmd;
    }
  }

  lemma OwedExactly(env: Env, s: State, id: nat)
    requires Inv(env, s) && forall x :: x in s.hist.book ==> WhereIs(s, x)
    requires forall x :: InSystem(s, x) ==> x in s.hist.book && x !in s.ledger.delivered
    ensures id in s.ledger.rem <==>
      Owed(s.pending, id) || (InSystem(s, id) && id in s.hist.book && !s.hist.book[id].cmd.op.Nowait())
  {
    hide Tickets, Backward, Queue, Hand, Flight, Wire, Slotted, Sessions, Fifo, Barrier;
    if id in s.hist.book {
      assert WhereIs(s, id);
    }
  }

  /** No insertion finds its key taken, so none silently drops a command. */
  lemma InsertsAreFresh(env: Env, s: State)
    requires Reachable(env, s)
    ensures s.phase.Settled? ==> s.phase.cmd.id !in s.ledger.completion
    ensures s.nextReq !in s.inflight
    ensures !Holding(s.phase) ==> Outstanding(s) !! s.ledger.completion.Keys
  {
    hide Reachable, Run;
    ReachableInv(env, s);
    Containers(env, s);
    hide Inv, Tickets, Backward, Queue, Hand, Wire, Slotted, Books, Issued, Sessions, Fifo, Barrier;
    NextReqFree(env, s);
  }

  lemma NextReqFree(env: Env, s: State)
    requires Inv(env, s)
    ensures s.nextReq !in s.inflight
  {
    hide Tickets, Backward, Queue, Hand, Wire, Slotted, Books, Issued, Sessions, Fifo, Barrier;
  }

  // ---- delivery ----

  /** Most steps hand out no result. */
  lemma OthersDeliver(env: Env, s: State, st: Step)
    requires Enabled(env, s, st) && !st.Collect? && !st.Receive? && !st.RunVH?
    ensures Next(env, s, st).ledger.delivered == s.ledger.delivered
  {
    hide HostEffect, VhEffect, OnReply, OnVH, Handle, MsgOf, OpOk, RefsOk, Outstanding, SetLoc, Insert, Cancel, Unused;
  }

  lemma StepDelivers(env: Env, s: State, st: Step, id: nat)
    requires Inv(env, s) && Enabled(env, s, st) && id in s.ledger.delivered
    ensures var t := Next(env, s, st); id in t.ledger.delivered && t.ledger.delivered[id] == s.ledger.delivered[id]
  {
    hide Tickets, Backward, Queue, Hand, Flight, Wire, Slotted, Books, Issued, Sessions, Fifo, Barrier;
    hide HostEffect, VhEffect, OpOk, RefsOk, SetLoc;
    match st
    case Collect(t, i) => PeekGrows(s.ledger, s.hist.book, Some(i), ToUser(t));
    case Receive =>
      if s.wire[0].req in s.inflight {
        var c := s.inflight[s.wire[0].req];
        if c.op.Send? || c.op.Recv? { PeekGrows(s.ledger, s.hist.book, c.op.prev, ToCommand(c.id)); }
      }
    case RunVH =>
      var c := s.phase.cmd;
      if c.op.Join? { JoinGrows(s.ledger, s.hist.book, c); }
    case _ => OthersDeliver(env, s, st);
  }

  lemma JoinGrows(l: Ledger, book: Book, c: Command)
    requires Books(l, book) && c.op.Join?
    ensures var me := ToCommand(c.id);
      var k := PeekOpt(PeekOpt(PeekOpt(l, c.op.write, me).ledger, c.op.call, me).ledger, c.op.read, me);
      Grows(book, l.delivered, book, k.ledger.delivered)
  {
    hide Books, Peek;
    var me := ToCommand(c.id);
    PeekGrows(l, book, c.op.write, me);
    PeekBooks(l, book, c.op.write, me);
    var w := PeekOpt(l, c.op.write, me).ledger;
    PeekGrows(w, book, c.op.call, me);
    PeekBooks(w, book, c.op.call, me);
    PeekGrows(PeekOpt(w, c.op.call, me).ledger, book, c.op.read, me);
  }

  /** A result is delivered at most once: once somebody has it, every later attempt gets ERROR. */
  lemma {:induction false} DeliveredOnce(env: Env, s: State, steps: seq<Step>, id: nat, who: Recipient)
    requires Reachable(env, s) && id in s.ledger.delivered && Run(env, s, steps).Some?
    ensures var t := Run(env, s, steps).value;
      && id in t.ledger.delivered && t.ledger.delivered[id] == s.ledger.delivered[id]
      && Peek(t.ledger, id, who) == Peeked(t.ledger, Error, 0)
  {
    hide Reachable, Inv, Next, Enabled;
    ReachableInv(env, s);
    RunKeeps(env, s, steps);
    if steps != [] {
      var front := steps[..|steps| - 1];
      DeliveredOnce(env, s, front, id, who);
      RunKeeps(env, s, front);
      StepDelivers(env, Run(env, s, front).value, steps[|steps| - 1], id);
    }
    NotOwed(env, Run(env, s, steps).value, id);
  }

  lemma NotOwed(env: Env, s: State, id: nat)
    requires Inv(env, s) && id in s.ledger.delivered
    ensures id !in s.ledger.rem
  {
    hide Tickets, Backward, Queue, Hand, Flight, Wire, Slotted, Issued, Sessions, Fifo, Barrier;
  }

  /** An id that was never issued gets ERROR. */
  lemma NeverIssued(env: Env, s: State, id: nat, who: Recipient)
    requires Reachable(env, s) && id >= s.seqNo
    ensures Peek(s.ledger, id, who) == Peeked(s.ledger, Error, 0)
  {
    hide Reachable, Run;
    ReachableInv(env, s);
    hide Backward, Queue, Hand, Flight, Wire, Slotted, Books, Sessions, Fifo, Barrier;
  }

  /** UNFINISHED is only ever reported for a request that is being submitted, queued, in hand or in
  flight, and every other owed request is reported with the result it ended with. */
  lemma TruthfulPeek(env: Env, s: State, id: nat, who: Recipient)
    requires Reachable(env, s)
    ensures forall x :: x in s.ledger.completion ==> s.ledger.completion[x].status != Unfinished
    ensures Peek(s.ledger, id, who).status == Unfinished <==>
      id in s.ledger.rem && (Owed(s.pending, id) || id in IdsOf(s.request) || id in HandIds(s) || id in FlightIds(s))
    ensures id in s.ledger.rem && Peek(s.ledger, id, who).status != Unfinished ==>
      && id in s.hist.book && s.hist.book[id].loc.Finished?
      && s.hist.book[id].loc.out.res == Result(Peek(s.ledger, id, who).status, Peek(s.ledger, id, who).retval)
  {
    hide Reachable, Run;
    ReachableChains(env, s);
    Containers(env, s);
    if id in s.hist.book { Located(env, s, id); }
    FinalBook(s);
    PendingNew(env, s);
    hide Tickets, Backward, Queue, Hand, Flight, Wire, Slotted, Sessions, Fifo, Barrier, ChainInv;
  }

  // ---- order ----

  function CmdIds(cs: seq<Command>): (r: seq<nat>)
    ensures |r| == |cs| && forall i :: 0 <= i < |cs| ==> r[i] == cs[i].id
  {
    seq(|cs|, i requires 0 <= i < |cs| => cs[i].id)
  }

  /** Commands start in the order they were pushed, through put-backs, delayed VH commands and
  pushes by other threads: started, popped and queued commands together are the push history. */
  lemma FifoRefinement(env: Env, s: State)
    requires Reachable(env, s) && !s.hist.aborted
    ensures s.hist.started + (if s.phase.Popped? then [s.phase.cmd.id] else []) + CmdIds(s.request) == Ids(s.hist.pushed)
  {
    hide Reachable, Run, Inv;
    ReachableInv(env, s);
    FifoParts(env, s);
    var hand := if s.phase.Popped? then [s.phase.cmd.id] else [];
    assert |s.hist.started| == Begun(s) && |hand| == Front(s) - Begun(s);
    forall i | 0 <= i < |s.hist.pushed|
      ensures (s.hist.started + hand + CmdIds(s.request))[i] == Ids(s.hist.pushed)[i]
    {
      if i >= Front(s) { assert s.request[i - Front(s)] == s.hist.pushed[i].cmd; }
    }
  }

  lemma FifoParts(env: Env, s: State)
    requires Inv(env, s) && !s.hist.aborted
    ensures 0 <= Begun(s) <= Front(s) <= |s.hist.pushed| && s.hist.started == Ids(s.hist.pushed[..Begun(s)])
    ensures |s.request| == |s.hist.pushed| - Front(s)
    ensures forall k :: 0 <= k < |s.request| ==> s.request[k] == s.hist.pushed[Front(s) + k].cmd
    ensures Front(s) == if s.phase.Popped? then Begun(s) + 1 else Begun(s)
    ensures s.phase.Popped? ==> s.hist.pushed[Begun(s)].cmd == s.phase.cmd
  {
    if s.phase.Popped? { InHand(env, s); }
    hide Tickets, Backward, Hand, Flight, Wire, Slotted, Books, Issued, Sessions, Barrier;
  }

  /** When a VH command is about to run, nothing is in flight and everything pushed before it is finished. */
  lemma VHBarrier(env: Env, s: State, i: nat)
    requires Reachable(env, s) && CanRunVH(s)
    requires s.phase.cmd.id in s.hist.book && i < s.hist.book[s.phase.cmd.id].pos && i < |s.hist.pushed|
    ensures s.inflight == map[] && s.hist.pushed[i].cmd.id in s.hist.book
    ensures s.hist.book[s.hist.pushed[i].cmd.id].loc.Finished?
  {
    hide Reachable, Run;
    ReachableInv(env, s);
    hide Backward, Queue, Hand, Flight, Wire, Slotted, Books, Issued, Sessions, Fifo, Barrier;
    BeforeVH(env, s, s.hist.pushed[i].cmd.id);
  }

  /** synchronize: once the result of its VH marker can be picked up, every request pushed before
  the marker is finished, whether or not the context was aborted meanwhile. */
  lemma SynchronizeIsBarrier(env: Env, s: State, marker: nat, id: nat, who: Recipient)
    requires Reachable(env, s) && marker in s.hist.book && s.hist.book[marker].cmd.op.IsVH()
    requires marker in s.ledger.rem && Peek(s.ledger, marker, who).status != Unfinished
    requires id in s.hist.book && s.hist.book[id].pos < s.hist.book[marker].pos
    ensures s.hist.book[id].loc.Finished?
  {
    hide Reachable, Run;
    ReachableInv(env, s);
    TruthfulPeek(env, s, marker, who);
    hide Tickets, Backward, Queue, Hand, Flight, Wire, Slotted, Books, Issued, Sessions, Fifo;
    assert HasRun(s.phase, s.hist.book, marker);
  }

  /** Pushes made during one holding of the submit lock are adjacent and made by one thread. */
  lemma BlockContiguity(env: Env, s: State, i: nat, k: nat, j: nat)
    requires Reachable(env, s) && i <= k <= j < |s.hist.pushed|
    requires s.hist.pushed[i].session == s.hist.pushed[j].session
    ensures s.hist.pushed[k].session == s.hist.pushed[i].session && s.hist.pushed[k].tid == s.hist.pushed[i].tid
    ensures !s.hist.aborted && j < |s.hist.started| ==> s.hist.started[k] == s.hist.pushed[k].cmd.id
  {
    hide Reachable, Run;
    ReachableInv(env, s);
    hide Tickets, Backward, Queue, Hand, Flight, Wire, Slotted, Books, Issued, Barrier;
  }

  /** Steps of the submitting threads; the others are the engine's. */
  predicate BySubmitter(st: Step) { st.Issue? || st.Forget? || st.Lock? || st.Unlock? || st.PushReq? }

  lemma EngineSession(env: Env, s: State, st: Step)
    requires Enabled(env, s, st) && !BySubmitter(st)
    ensures var t := Next(env, s, st); t.session == s.session && t.owner == s.owner && t.hist.pushed == s.hist.pushed
  {
    hide HostEffect, VhEffect, OnReply, OnVH, Handle, MsgOf, OpOk, RefsOk, Peek, Outstanding, SetLoc, Unused;
  }

  lemma SubmitterSession(env: Env, s: State, st: Step, tid: Tid)
    requires Inv(env, s) && Enabled(env, s, st) && BySubmitter(st) && s.owner == Some(tid)
    ensures var t := Next(env, s, st);
      && t.session == s.session
      && (t.owner == Some(tid) || (st == Unlock(tid) && s.depth == 1 && t.owner == None))
      && (|t.hist.pushed| > |s.hist.pushed| ==>
            st == PushReq(tid) && t.hist.pushed == s.hist.pushed + [Push(s.pending[tid].cmd, tid, s.session)])
  {
    hide Tickets, Backward, Queue, Hand, Flight, Wire, Slotted, Books, Issued, Fifo, Barrier, OpOk, RefsOk;
  }

  /** A holding of the submit lock is one session, and only its holder pushes in it. */
  lemma OneSession(env: Env, s: State, st: Step, tid: Tid)
    requires Reachable(env, s) && Enabled(env, s, st) && s.owner == Some(tid)
    ensures var t := Next(env, s, st);
      && t.session == s.session
      && (t.owner == Some(tid) || (st == Unlock(tid) && s.depth == 1 && t.owner == None))
      && (|t.hist.pushed| > |s.hist.pushed| ==>
            st == PushReq(tid) && t.hist.pushed == s.hist.pushed + [Push(s.pending[tid].cmd, tid, s.session)])
  {
    hide Reachable, Run, Inv, Next, Enabled;
    ReachableInv(env, s);
    if BySubmitter(st) { SubmitterSession(env, s, st, tid); } else { EngineSession(env, s, st); }
  }

  // ---- abort ----

  /** After an abort nothing is queued or in flight; every owed id has a result unless its command
  is still to be pushed; results that were ready are unchanged, the others are ERROR; and only after
  an abort can a reply arrive for which there is no command. */
  lemma AbortIsTotal(env: Env, s: State, st: Step)
    requires Reachable(env, s) && Enabled(env, s, st) && (st.Abort? || st.PeerDeath?)
    ensures var t := Next(env, s, st);
      && t.request == [] && t.inflight == map[] && t.phase.Idle? && t.exited
      && t.ledger.rem == s.ledger.rem
      && (forall id :: id in t.ledger.rem ==> (id in t.ledger.completion <==> !Owed(t.pending, id)))
      && (forall id :: id in t.ledger.completion ==>
            t.ledger.completion[id] ==
            if id in s.ledger.completion then s.ledger.completion[id] else Result(Error, 0))
    ensures forall id :: id in s.ledger.completion ==> id in Next(env, s, st).ledger.completion
    ensures s.hist.threw ==> s.hist.aborted
  {
    hide Reachable, Run;
    ReachableInv(env, s);
    CancelKeeps(env, s);
    CancelBook(env, s);
    PendingNew(env, s);
    hide Tickets, Backward, Queue, Hand, Flight, Wire, Slotted, Sessions, Fifo, Barrier, Outstanding;
  }

  // ---- chains ----

  /** A fragmented transfer: each request picks up the one before it. */
  ghost predicate IsChain(book: Book, ids: seq<nat>) {
    && |ids| > 0
    && (forall i :: 0 <= i < |ids| ==> ids[i] in book && (book[ids[i]].cmd.op.Send? || book[ids[i]].cmd.op.Recv?))
    && book[ids[0]].cmd.op.prev == None
    && (forall i :: 0 < i < |ids| ==> book[ids[i]].cmd.op.prev == Some(ids[i - 1]))
  }

  predicate EndedOk(book: Book, id: nat) { id in book && book[id].loc.Finished? && book[id].loc.out.res.status == Ok }

  /** Sent and answered without error. */
  predicate WasAnswered(book: Book, id: nat) { id in book && book[id].loc.Finished? && book[id].loc.out.fate == Answered }

  /** Nobody but the successor took the result of an intermediate fragment. */
  ghost predicate NotStolen(delivered: map<nat, Recipient>, ids: seq<nat>) {
    forall i :: 0 <= i < |ids| - 1 && ids[i] in delivered ==> delivered[ids[i]] == ToCommand(ids[i + 1])
  }

  ghost predicate Consumed(s: State, id: nat, taker: nat) {
    && id in s.ledger.delivered && s.ledger.delivered[id] == ToCommand(taker)
    && id !in s.ledger.completion && id !in s.ledger.rem
  }

  /** The fragment before `id`, if any, ended OK and its result went to nobody else. */
  ghost predicate PrevKept(s: State, id: nat)
    requires id in s.hist.book && (s.hist.book[id].cmd.op.Send? || s.hist.book[id].cmd.op.Recv?)
  {
    var prev := s.hist.book[id].cmd.op.prev;
    prev.Some? ==>
      && EndedOk(s.hist.book, prev.value)
      && (prev.value in s.ledger.delivered ==> s.ledger.delivered[prev.value] == ToCommand(id))
  }

  /** One link of a chain. */
  lemma LinkSound(env: Env, s: State, id: nat)
    requires Inv(env, s) && ChainInv(s)
    requires id in s.hist.book && (s.hist.book[id].cmd.op.Send? || s.hist.book[id].cmd.op.Recv?)
    ensures EndedOk(s.hist.book, id) ==> WasAnswered(s.hist.book, id)
    ensures var prev := s.hist.book[id].cmd.op.prev;
      EndedOk(s.hist.book, id) && prev.Some? ==> EndedOk(s.hist.book, prev.value) && Consumed(s, prev.value, id)
    ensures WasAnswered(s.hist.book, id) && PrevKept(s, id) ==> EndedOk(s.hist.book, id)
  {
    hide Tickets, Backward, Queue, Hand, Flight, Wire, Slotted, Issued, Sessions, Fifo, Barrier, Recipients, Freed;
    assert s.hist.book[id].loc.Finished? ==>
      Verdict(s.hist.book, s.ledger.delivered, id, s.hist.book[id].cmd.op, s.hist.book[id].loc.out);
  }

  lemma {:induction false} ChainOkFrom(env: Env, s: State, ids: seq<nat>)
    requires Inv(env, s) && ChainInv(s) && IsChain(s.hist.book, ids) && EndedOk(s.hist.book, ids[|ids| - 1])
    ensures forall i :: 0 <= i < |ids| ==> WasAnswered(s.hist.book, ids[i])
    ensures forall i :: 0 <= i < |ids| - 1 ==> EndedOk(s.hist.book, ids[i]) && Consumed(s, ids[i], ids[i + 1])
  {
    hide Inv, ChainInv, Consumed, WasAnswered, EndedOk, PrevKept;
    var n := |ids| - 1;
    LinkSound(env, s, ids[n]);
    if n > 0 {
      var front := ids[..n];
      ChainOkFrom(env, s, front);
      forall i | 0 <= i < n ensures WasAnswered(s.hist.book, ids[i]) { assert front[i] == ids[i]; }
      forall i | 0 <= i < n ensures EndedOk(s.hist.book, ids[i]) && Consumed(s, ids[i], ids[i + 1]) {
        if i < n - 1 { assert front[i] == ids[i] && front[i + 1] == ids[i + 1]; }
      }
    }
  }

  /** If the last id of a chain ends OK, every fragment was sent and answered without error and each
  intermediate result was consumed by its successor, so that it is neither ready nor owed any more. */
  lemma ChainOkMeansAll(env: Env, s: State, ids: seq<nat>)
    requires Reachable(env, s) && IsChain(s.hist.book, ids) && EndedOk(s.hist.book, ids[|ids| - 1])
    ensures forall i :: 0 <= i < |ids| ==> WasAnswered(s.hist.book, ids[i])
    ensures forall i :: 0 <= i < |ids| - 1 ==> EndedOk(s.hist.book, ids[i]) && Consumed(s, ids[i], ids[i + 1])
  {
    hide *;
    ReachableChains(env, s);
    ChainOkFrom(env, s, ids);
  }

  lemma {:induction false} AnsweredChain(env: Env, s: State, ids: seq<nat>)
    requires Inv(env, s) && ChainInv(s) && IsChain(s.hist.book, ids) && NotStolen(s.ledger.delivered, ids)
    requires forall i :: 0 <= i < |ids| ==> WasAnswered(s.hist.book, ids[i])
    ensures EndedOk(s.hist.book, ids[|ids| - 1])
  {
    hide Inv, ChainInv, Consumed, WasAnswered, EndedOk;
    var n := |ids| - 1;
    if n > 0 {
      var front := ids[..n];
      AnsweredChain(env, s, front);
      assert front[|front| - 1] == ids[n - 1];
    }
    LinkSound(env, s, ids[n]);
  }

  /** The last id of a chain ends OK if and only if every fragment was sent and answered without error
  (given that no outsider took an intermediate result). */
  lemma ChainSound(env: Env, s: State, ids: seq<nat>)
    requires Reachable(env, s) && IsChain(s.hist.book, ids) && NotStolen(s.ledger.delivered, ids)
    ensures EndedOk(s.hist.book, ids[|ids| - 1]) <==> forall i :: 0 <= i < |ids| ==> WasAnswered(s.hist.book, ids[i])
  {
    ReachableChains(env, s);
    hide *;
    if EndedOk(s.hist.book, ids[|ids| - 1]) { ChainOkFrom(env, s, ids); }
    if forall i :: 0 <= i < |ids| ==> WasAnswered(s.hist.book, ids[i]) { AnsweredChain(env, s, ids); }
  }

  // ---- joins ----

  /** A part of a join ended OK; a part that was not accepted counts as OK. */
  predicate PartOk(book: Book, p: Option<nat>) { p.Some? ==> EndedOk(book, p.value) }

  ghost predicate PartKept(s: State, p: Option<nat>, join: nat) {
    p.Some? && p.value in s.ledger.delivered ==> s.ledger.delivered[p.value] == ToCommand(join)
  }

  /** The join of a large call that has run: it saw no UNFINISHED part, since all its parts were finished;
  it reports OK exactly if all its parts ended OK; it returns the value of the call; and on success the
  parts are consumed, so that only its own id can still be waited for. */
  lemma JoinSound(env: Env, s: State, id: nat)
    requires Reachable(env, s) && id in s.hist.book && s.hist.book[id].cmd.op.Join?
    requires s.hist.book[id].loc.Finished? && s.hist.book[id].loc.out.fate == Ran
    requires var op := s.hist.book[id].cmd.op;
      PartKept(s, op.write, id) && PartKept(s, op.call, id) && PartKept(s, op.read, id)
    ensures var op := s.hist.book[id].cmd.op; var res := s.hist.book[id].loc.out.res;
      && res.status != Unfinished
      && (forall r :: r in op.Refs() ==> r in s.hist.book && s.hist.book[r].loc.Finished? && Consumed(s, r, id))
      && (res.status == Ok <==> PartOk(s.hist.book, op.write) && PartOk(s.hist.book, op.call) && PartOk(s.hist.book, op.read))
      && (op.call.Some? ==> res.retval == s.hist.book[op.call.value].loc.out.res.retval)
  {
    hide Reachable, Run, Inv, ChainInv;
    ReachableChains(env, s);
    var op := s.hist.book[id].cmd.op;
    FinishedVerdict(env, s, id);
    assert JoinVerdict(s.hist.book, s.ledger.delivered, id, op, s.hist.book[id].loc.out.res);
    forall r | r in op.Refs() && r in s.ledger.delivered && s.ledger.delivered[r] == ToCommand(id)
      ensures Consumed(s, r, id)
    {
      TakenIsConsumed(env, s, r, id);
    }
  }

  lemma FinishedVerdict(env: Env, s: State, id: nat)
    requires ChainInv(s) && id in s.hist.book && s.hist.book[id].loc.Finished?
    ensures Verdict(s.hist.book, s.ledger.delivered, id, s.hist.book[id].cmd.op, s.hist.book[id].loc.out)
  {
  }

  lemma TakenIsConsumed(env: Env, s: State, id: nat, taker: nat)
    requires Inv(env, s) && id in s.ledger.delivered && s.ledger.delivered[id] == ToCommand(taker)
    ensures Consumed(s, id, taker)
  {
    hide Tickets, Backward, Queue, Hand, Flight, Wire, Slotted, Issued, Sessions, Fifo, Barrier;
  }

  /** A join that reports OK found every part it names OK and took it, whatever outsiders did. */
  lemma JoinOkParts(env: Env, s: State, id: nat)
    requires Reachable(env, s) && id in s.hist.book && s.hist.book[id].cmd.op.Join? && EndedOk(s.hist.book, id)
    ensures forall r :: r in s.hist.book[id].cmd.op.Refs() ==> EndedOk(s.hist.book, r) && Consumed(s, r, id)
  {
    hide Reachable, Run, Inv, ChainInv;
    ReachableChains(env, s);
    var op := s.hist.book[id].cmd.op;
    FinishedVerdict(env, s, id);
    assert JoinVerdict(s.hist.book, s.ledger.delivered, id, op, s.hist.book[id].loc.out.res);
    forall r | r in op.Refs() ensures EndedOk(s.hist.book, r) && Consumed(s, r, id) {
      TakenIsConsumed(env, s, r, id);
    }
  }

  /** A call that ended OK was answered. */
  lemma CallVerdict(env: Env, s: State, id: nat)
    requires Reachable(env, s) && id in s.hist.book && s.hist.book[id].cmd.op.Call?
    ensures EndedOk(s.hist.book, id) <==> WasAnswered(s.hist.book, id)
  {
    hide Reachable, Run, Inv, ChainInv;
    ReachableChains(env, s);
    if s.hist.book[id].loc.Finished? { FinishedVerdict(env, s, id); }
  }

  /** A join and a command that was pushed before it. */
  ghost predicate FreedBefore(book: Book, join: nat, id: nat) {
    join in book && book[join].cmd.op.Join? && id in book && book[id].pos < book[join].pos
  }

  /** A stack buffer is released at most once, only by a join or by a call that is alone; and when a join has
  released it, everything pushed before the join is finished. */
  lemma FreedOnceAndLast(env: Env, s: State)
    requires Reachable(env, s)
    ensures forall i, j :: 0 <= i < j < |s.hist.freed| ==> s.hist.freed[i] != s.hist.freed[j]
    ensures forall i :: 0 <= i < |s.hist.freed| ==> s.hist.freed[i] in s.hist.book && Releases(s.hist.book[s.hist.freed[i]].cmd.op)
    ensures forall i, id :: 0 <= i < |s.hist.freed| && FreedBefore(s.hist.book, s.hist.freed[i], id) ==>
      s.hist.book[id].loc.Finished?
  {
    hide Reachable, Run;
    ReachableChains(env, s);
    hide Tickets, Backward, Queue, Hand, Flight, Wire, Slotted, Books, Issued, Sessions, Fifo, Recipients, Verdicts;
  }

  // ---- values, exceptions and requests nobody waits for ----

  /** A transfer that ends OK returns 0. */
  lemma {:induction false} ChainValue(env: Env, s: State, ids: seq<nat>)
    requires Inv(env, s) && ChainInv(s) && IsChain(s.hist.book, ids) && EndedOk(s.hist.book, ids[|ids| - 1])
    ensures s.hist.book[ids[|ids| - 1]].loc.out.res == Result(Ok, 0)
  {
    hide Inv, ChainInv, Consumed, WasAnswered, PrevKept;
    var n := |ids| - 1;
    LinkSound(env, s, ids[n]);
    FinishedVerdict(env, s, ids[n]);
    if n > 0 {
      var front := ids[..n];
      assert front[|front| - 1] == ids[n - 1];
      ChainValue(env, s, front);
    }
  }

  lemma TransferReturnsZero(env: Env, s: State, ids: seq<nat>)
    requires Reachable(env, s) && IsChain(s.hist.book, ids) && EndedOk(s.hist.book, ids[|ids| - 1])
    ensures s.hist.book[ids[|ids| - 1]].loc.out.res == Result(Ok, 0)
  {
    hide *;
    ReachableChains(env, s);
    ChainValue(env, s, ids);
  }

  /** What an exception on the VE leaves in the result of its request. */
  function ExceptionResult(op: Op, code: Word): Result {
    Result(Exception, if op.Send? then TWO64 - 12 else if op.Recv? then TWO64 - 13 else code)
  }

  /** The result function of a request that raised: nothing new is in the completion map, and the loop will give up. */
  lemma RaisedReply(l: Ledger, c: Command, code: Word)
    requires !c.op.IsVH()
    ensures var a := OnReply(l, c, Exc(code));
      a.out == Outcome(ExceptionResult(c.op, code), Raised) && a.bad && a.ledger.completion.Keys <= l.completion.Keys
  {
  }

  /** What is in flight has no result yet. */
  lemma FlyingHasNone(env: Env, s: State, r: nat)
    requires Inv(env, s) && r in s.inflight
    ensures s.inflight[r].id !in s.ledger.completion
  {
    hide Tickets, Backward, Queue, Hand, Wire, Slotted, Issued, Sessions, Fifo, Barrier;
  }

  lemma ExceptionStored(env: Env, s: State)
    requires Inv(env, s) && CanReceive(s) && s.wire[0].req in s.inflight && s.wire[0].reply.value.Exc?
    requires !s.inflight[s.wire[0].req].op.Nowait()
    ensures DoReceive(s).phase.Settled?
    ensures var c := s.inflight[s.wire[0].req]; var t := DoComplete(DoReceive(s));
      && t.phase.Failing? && t.inflight == s.inflight - {s.wire[0].req}
      && c.id in t.ledger.completion && t.ledger.completion[c.id] == ExceptionResult(c.op, s.wire[0].reply.value.code)
      && t.ledger.completion.Keys <= s.ledger.completion.Keys + {c.id}
  {
    hide Inv, OnReply, HostEffect, SetLoc;
    OldestReply(env, s);
    FlyingHasNone(env, s, s.wire[0].req);
    RaisedReply(s.ledger, s.inflight[s.wire[0].req], s.wire[0].reply.value.code);
  }

  /** An exception on the VE: its request gets EXCEPTION, with the code the VE sent for calls and generic requests; the
  loop gives up, so that everything else in flight gets ERROR. */
  lemma ExceptionEndsAll(env: Env, s: State)
    requires Reachable(env, s) && CanReceive(s) && s.wire[0].req in s.inflight && s.wire[0].reply.value.Exc?
    requires !s.inflight[s.wire[0].req].op.Nowait()
    ensures DoReceive(s).phase.Settled?
    ensures var c := s.inflight[s.wire[0].req]; var t := DoCancelAll(DoComplete(DoReceive(s)));
      && Run(env, s, [Receive, Complete, Abort]) == Some(t) && t.exited && t.request == [] && t.inflight == map[]
      && c.id in t.ledger.completion && t.ledger.completion[c.id] == ExceptionResult(c.op, s.wire[0].reply.value.code)
      && (forall r :: r in s.inflight && s.inflight[r].id != c.id ==>
            s.inflight[r].id in t.ledger.completion && t.ledger.completion[s.inflight[r].id] == Result(Error, 0))
  {
    hide Reachable, Run, Inv, DoComplete, DoReceive;
    ReachableInv(env, s);
    ExceptionStored(env, s);
    var c, s1 := s.inflight[s.wire[0].req], DoComplete(DoReceive(s));
    TwoSteps(env, s, Receive, Complete);
    OneStep(env, s1, Abort);
    var steps := Extend(env, s, [Receive, Complete], [Abort]);
    assert steps == [Receive, Complete, Abort];
    forall r | r in s.inflight && s.inflight[r].id != c.id
      ensures s.inflight[r].id in Outstanding(s1) && s.inflight[r].id !in s1.ledger.completion
    {
      FlyingHasNone(env, s, r);
      assert r in s1.inflight && s1.inflight[r] == s.inflight[r];
    }
  }

  /** An answer to a request nobody waits for is not kept: a result in the completion map that nobody will pick up comes
  from a command that was refused or cancelled. */
  ghost predicate Silent(phase: Phase, completion: map<nat, Result>, book: Book) {
    && (forall id :: id in completion && id in book && book[id].cmd.op.Nowait() && book[id].loc.Finished? ==>
          book[id].loc.out.fate == Refused || book[id].loc.out.fate == Cancelled)
    && (phase.Settled? && phase.keep && phase.cmd.op.Nowait() ==> phase.out.fate == Refused)
  }

  lemma MoveSilent(phase: Phase, completion: map<nat, Result>, book: Book, phase': Phase, completion': map<nat, Result>, id: nat, l: Loc)
    requires Silent(phase, completion, book) && completion'.Keys <= completion.Keys && id !in completion
    requires phase'.Settled? && phase'.keep && phase'.cmd.op.Nowait() ==> phase'.out.fate == Refused
    ensures Silent(phase', completion', SetLoc(book, id, l))
  {
  }

  lemma SameSilent(phase: Phase, completion: map<nat, Result>, book: Book, phase': Phase, completion': map<nat, Result>)
    requires Silent(phase, completion, book) && completion'.Keys <= completion.Keys
    requires phase' == phase || (phase'.Settled? && phase'.keep && phase'.cmd.op.Nowait() ==> phase'.out.fate == Refused)
    ensures Silent(phase', completion', book)
  {
  }

  lemma CompleteSilent(env: Env, s: State)
    requires Inv(env, s) && s.phase.Settled? && Silent(s.phase, s.ledger.completion, s.hist.book)
    ensures var t := DoComplete(s); Silent(t.phase, t.ledger.completion, t.hist.book)
  {
    InHand(env, s);
    hide Tickets, Backward, Queue, Hand, Flight, Wire, Slotted, Issued, Sessions, Fifo, Barrier;
  }

  lemma CancelSilent(env: Env, s: State)
    requires Inv(env, s) && Silent(s.phase, s.ledger.completion, s.hist.book)
    ensures var t := DoCancelAll(s); Silent(t.phase, t.ledger.completion, t.hist.book)
  {
    hide Tickets, Backward, Queue, Hand, Flight, Wire, Slotted, Issued, Sessions, Fifo, Barrier, Outstanding;
  }

  lemma PushSilent(env: Env, s: State, tid: Tid)
    requires Inv(env, s) && CanPush(s, tid) && Silent(s.phase, s.ledger.completion, s.hist.book)
    ensures var t := DoPush(s, tid); Silent(t.phase, t.ledger.completion, t.hist.book)
  {
    PushReady(env, s, tid);
    hide Tickets, Backward, Queue, Hand, Flight, Wire, Slotted, Issued, Sessions, Fifo, Barrier;
  }

  lemma UnfinishedHasNone(env: Env, s: State, id: nat)
    requires Inv(env, s) && id in s.hist.book && !s.hist.book[id].loc.Finished?
    ensures id !in s.ledger.completion
  {
    hide Tickets, Backward, Queue, Hand, Flight, Wire, Slotted, Issued, Sessions, Fifo, Barrier;
  }

  /** Result functions and VH commands only take results out. */
  lemma TakesOut(env: Env, l: Ledger, host: Mem, c: Command, reply: Reply)
    ensures OnReply(l, c, reply).ledger.completion.Keys <= l.completion.Keys
    ensures c.op.IsVH() ==> OnVH(env, l, host, c).ledger.completion.Keys <= l.completion.Keys
  {
  }

  lemma ReceiveSilent(env: Env, s: State)
    requires Inv(env, s) && CanReceive(s) && Silent(s.phase, s.ledger.completion, s.hist.book)
    ensures var t := DoReceive(s); Silent(t.phase, t.ledger.completion, t.hist.book)
  {
    hide Inv, OnReply, HostEffect, SetLoc, Silent;
    var t := DoReceive(s);
    if s.wire[0].req in s.inflight {
      var c := s.inflight[s.wire[0].req];
      OldestReply(env, s);
      FlyingHasNone(env, s, s.wire[0].req);
      TakesOut(env, s.ledger, s.host, c, s.wire[0].reply.value);
      MoveSilent(s.phase, s.ledger.completion, s.hist.book, t.phase, t.ledger.completion, c.id, Held);
    } else {
      SameSilent(s.phase, s.ledger.completion, s.hist.book, t.phase, t.ledger.completion);
    }
  }

  /** Steps that only move the command in hand or at the head of the queue. */
  lemma HandSilent(env: Env, s: State, st: Step)
    requires Inv(env, s) && Enabled(env, s, st) && (st.Pop? || st.PutBack? || st.Submit?)
    requires Silent(s.phase, s.ledger.completion, s.hist.book)
    ensures var t := Next(env, s, st); Silent(t.phase, t.ledger.completion, t.hist.book)
  {
    hide Inv, MsgOf, InTheClear, SetLoc, Silent;
    var t := Next(env, s, st);
    if st.Pop? {
      HeadQueued(env, s);
      UnfinishedHasNone(env, s, s.request[0].id);
      MoveSilent(s.phase, s.ledger.completion, s.hist.book, t.phase, t.ledger.completion, s.request[0].id, Held);
    } else {
      InHand(env, s);
      UnfinishedHasNone(env, s, s.phase.cmd.id);
      var to := if st.PutBack? then Queued else Flying(s.nextReq);
      MoveSilent(s.phase, s.ledger.completion, s.hist.book, t.phase, t.ledger.completion, s.phase.cmd.id, to);
    }
  }

  /** Steps that move nothing and put nothing into the completion map. */
  lemma OtherSilent(env: Env, s: State, st: Step)
    requires Enabled(env, s, st) && Silent(s.phase, s.ledger.completion, s.hist.book)
    requires !(st.PushReq? || st.Receive? || st.Complete? || st.Pop? || st.PutBack? || st.Submit? || st.Abort? || st.PeerDeath?)
    ensures var t := Next(env, s, st); Silent(t.phase, t.ledger.completion, t.hist.book)
  {
    hide OnVH, VhEffect, Handle, RefsOk, OpOk, Unused, SetLoc, Silent, Write;
    var t := Next(env, s, st);
    if st.RunVH? { TakesOut(env, s.ledger, s.host, s.phase.cmd, Ack); }
    SameSilent(s.phase, s.ledger.completion, s.hist.book, t.phase, t.ledger.completion);
  }

  lemma SilentStep(env: Env, s: State, st: Step)
    requires Inv(env, s) && Enabled(env, s, st) && Silent(s.phase, s.ledger.completion, s.hist.book)
    ensures var t := Next(env, s, st); Silent(t.phase, t.ledger.completion, t.hist.book)
  {
    hide Inv, Silent, DoPush, DoReceive, DoComplete, DoCancelAll;
    match st
    case PushReq(tid) => PushSilent(env, s, tid);
    case Receive => ReceiveSilent(env, s);
    case Complete => CompleteSilent(env, s);
    case Abort => CancelSilent(env, s);
    case PeerDeath => CancelSilent(env, s);
    case Pop => HandSilent(env, s, st);
    case PutBack => HandSilent(env, s, st);
    case Submit => HandSilent(env, s, st);
    case _ => OtherSilent(env, s, st);
  }

  lemma {:induction false} SilentRun(env: Env, s: State, steps: seq<Step>)
    requires Inv(env, s) && Silent(s.phase, s.ledger.completion, s.hist.book) && Run(env, s, steps).Some?
    ensures var t := Run(env, s, steps).value; Silent(t.phase, t.ledger.completion, t.hist.book)
  {
    hide Inv, Silent, Next;
    if steps != [] {
      var front := steps[..|steps| - 1];
      RunKeeps(env, s, front);
      SilentRun(env, s, front);
      SilentStep(env, Run(env, s, front).value, steps[|steps| - 1]);
    }
  }

  lemma NowaitLeavesNothing(env: Env, s: State, id: nat)
    requires Reachable(env, s) && id in s.hist.book && s.hist.book[id].cmd.op.Nowait() && s.hist.book[id].loc.Finished?
    requires s.hist.book[id].loc.out.fate == Answered || s.hist.book[id].loc.out.fate == Raised
    ensures id !in s.ledger.completion && id !in s.ledger.rem
  {
    hide Inv;
    var s0, steps :| Init(s0) && Run(env, s0, steps) == Some(s);
    InitInv(env, s0);
    RunKeeps(env, s0, steps);
    SilentRun(env, s0, steps);
    NowaitNotOwed(env, s, id);
  }

  lemma NowaitNotOwed(env: Env, s: State, id: nat)
    requires Inv(env, s) && id in s.hist.book && s.hist.book[id].cmd.op.Nowait()
    ensures id !in s.ledger.rem
  {
    hide Tickets, Backward, Queue, Hand, Flight, Wire, Slotted, Issued, Sessions, Fifo, Barrier;
  }

  /** A join copies out of the stack buffer only if its read part was accepted and fine, or there was none to wait for. */
  lemma JoinCopies(env: Env, s: State)
    requires Reachable(env, s) && CanRunVH(s) && s.phase.cmd.op.Join?
    ensures var op := s.phase.cmd.op; var t := DoRunVH(env, s);
      && (op.read.Some? && !EndedOk(s.hist.book, op.read.value) ==> t.host == s.host)
      && (!op.copyout ==> t.host == s.host)
      && (op.read == None && op.copyout ==> t.host == ApplyOuts(s.host, Read(s.host, op.stack, op.size), op.outs))
  {
    hide Reachable, Run, ApplyOuts;
    ReachableChains(env, s);
    InHand(env, s);
    if s.phase.cmd.op.read.Some? { ReadPartPeeked(env, s); }
  }

  /** The join sees OK for its read part only if that ended OK. */
  lemma ReadPartPeeked(env: Env, s: State)
    requires Inv(env, s) && ChainInv(s) && CanRunVH(s) && s.phase.cmd.op.Join? && s.phase.cmd.op.read.Some?
    ensures OnVH(env, s.ledger, s.host, s.phase.cmd).readOk ==> EndedOk(s.hist.book, s.phase.cmd.op.read.value)
  {
    hide Tickets, Backward, Queue, Hand, Flight, Wire, Slotted, Issued, Sessions, Fifo, Barrier, ChainInv;
  }
}
