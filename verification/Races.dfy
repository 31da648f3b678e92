/** When commands do not race: a request is sent before earlier replies have arrived, so a command that reads what
one in flight is going to write may read too early. */
module Races {
  import opened Memory
  import opened Protocol
  import opened Engine
  import opened EngineInv
  import opened EngineChains
  import opened Sequential

  predicate AllVE(pushed: seq<Push>, i: nat, j: nat)
    requires j <= |pushed|
  {
    forall k :: i <= k < j ==> !pushed[k].cmd.op.IsVH()
  }

  // ---- what a caller can check ----

  /** A command may be pushed without fear of a race: no unfinished command, not separated from it by a VH command,
  writes host memory that it reads. */
  ghost predicate SafeToPush(env: Env, h: History, op: Op) {
    op.IsVH() || forall id ::
      id in h.book && !h.book[id].loc.Finished? && h.book[id].pos < |h.pushed| && AllVE(h.pushed, h.book[id].pos, |h.pushed|) ==>
        AllApart(Writes(env, h.book[id].cmd.op), Reads(env, op))
  }

  /** Each push of a run was safe when it was made. */
  ghost predicate Careful(env: Env, s: State, steps: seq<Step>) {
    steps == [] ||
    var front, last := steps[..|steps| - 1], steps[|steps| - 1];
    && Careful(env, s, front)
    && var m := Run(env, s, front);
       m.Some? && last.PushReq? && last.tid in m.value.pending ==>
         SafeToPush(env, m.value.hist, m.value.pending[last.tid].cmd.op)
  }

  /** Unfinished commands write nothing that a later one, not separated by a VH command, reads. */
  ghost predicate KeptApart(env: Env, pushed: seq<Push>, book: Book) {
    forall a, b ::
      (a in book && b in book && book[a].pos < book[b].pos < |pushed| && !book[a].loc.Finished?
       && AllVE(pushed, book[a].pos, book[b].pos + 1)) ==>
        AllApart(Writes(env, book[a].cmd.op), Reads(env, book[b].cmd.op))
  }

  /** The same commands, and what is finished stays so. */
  ghost predicate RollsOn(a: Book, b: Book) {
    SameRoll(a, b) && forall id :: id in a && a[id].loc.Finished? ==> b[id].loc.Finished?
  }

  lemma KeptRoll(env: Env, pushed: seq<Push>, a: Book, b: Book)
    requires KeptApart(env, pushed, a) && RollsOn(a, b)
    ensures KeptApart(env, pushed, b)
  {
    hide AllApart, Reads, Writes, AllVE;
  }

  lemma KeptPush(env: Env, h: History, q: Push)
    requires KeptApart(env, h.pushed, h.book) && SafeToPush(env, h, q.cmd.op) && q.cmd.id !in h.book
    requires forall id :: id in h.book ==> h.book[id].pos < |h.pushed|
    ensures KeptApart(env, h.pushed + [q], h.book[q.cmd.id := Entry(q.cmd, |h.pushed|, Queued)])
  {
    hide AllApart, Reads, Writes;
    var pushed, book := h.pushed + [q], h.book[q.cmd.id := Entry(q.cmd, |h.pushed|, Queued)];
    forall a, b | a in book && b in book && book[a].pos < book[b].pos < |pushed| && !book[a].loc.Finished?
      && AllVE(pushed, book[a].pos, book[b].pos + 1)
      ensures AllApart(Writes(env, book[a].cmd.op), Reads(env, book[b].cmd.op))
    {
      forall k | book[a].pos <= k < |h.pushed| && k <= book[b].pos ensures !h.pushed[k].cmd.op.IsVH() { assert pushed[k] == h.pushed[k]; }
      if b == q.cmd.id {
        assert AllVE(h.pushed, h.book[a].pos, |h.pushed|);
        assert pushed[|h.pushed|] == q;
      } else {
        assert AllVE(h.pushed, h.book[a].pos, h.book[b].pos + 1);
      }
    }
  }

  /** A VH command before the one in hand has run. */
  lemma VHIsDone(env: Env, s: State, k: nat)
    requires Inv(env, s) && s.phase.Popped? && k < Begun(s) && k < |s.hist.pushed| && s.hist.pushed[k].cmd.op.IsVH()
    ensures var id := s.hist.pushed[k].cmd.id; id in s.hist.book && s.hist.book[id].pos == k && s.hist.book[id].loc.Finished?
    ensures s.hist.book[s.hist.pushed[k].cmd.id].cmd == s.hist.pushed[k].cmd
  {
    hide Backward, Wire, Slotted, Books, Issued, Sessions, Fifo, Barrier;
  }

  lemma BehindBarrier(env: Env, s: State, a: nat, b: nat)
    requires Inv(env, s) && a in s.hist.book && b in s.hist.book && s.hist.book[a].pos < s.hist.book[b].pos
    requires s.hist.book[b].cmd.op.IsVH() && s.hist.book[b].loc.Finished?
    ensures s.hist.book[a].loc.Finished?
  {
    hide Tickets, Backward, Queue, Hand, Flight, Wire, Slotted, Books, Issued, Sessions, Fifo;
  }

  lemma FlightFacts(env: Env, s: State, r: nat)
    requires Inv(env, s) && CanSubmit(s) && r in s.inflight
    ensures s.inflight[r].id in s.hist.book
    ensures var e := s.hist.book[s.inflight[r].id];
      && e.cmd == s.inflight[r] && !e.loc.Finished? && !e.cmd.op.IsVH()
      && e.pos < Begun(s) < |s.hist.pushed| && s.hist.pushed[e.pos].cmd == e.cmd
  {
    InHand(env, s);
    hide Backward, Wire, Slotted, Books, Issued, Sessions, Fifo, Barrier;
  }

  /** What is in flight is not separated by a VH command from the command in hand. */
  lemma FlightIsVE(env: Env, s: State, r: nat)
    requires Inv(env, s) && CanSubmit(s) && r in s.inflight
    ensures s.inflight[r].id in s.hist.book && s.hist.book[s.inflight[r].id].pos < Begun(s) < |s.hist.pushed|
    ensures AllVE(s.hist.pushed, s.hist.book[s.inflight[r].id].pos, Begun(s) + 1)
  {
    hide Inv;
    FlightFacts(env, s, r);
    InHand(env, s);
    var id := s.inflight[r].id;
    forall k | s.hist.book[id].pos <= k < Begun(s) + 1 ensures !s.hist.pushed[k].cmd.op.IsVH() {
      if s.hist.book[id].pos < k < Begun(s) && s.hist.pushed[k].cmd.op.IsVH() {
        VHIsDone(env, s, k);
        BehindBarrier(env, s, id, s.hist.pushed[k].cmd.id);
      }
    }
  }

  lemma SentInTheClear(env: Env, s: State)
    requires Inv(env, s) && CanSubmit(s) && KeptApart(env, s.hist.pushed, s.hist.book)
    ensures InTheClear(env, s.inflight, s.phase.cmd.op)
  {
    InHand(env, s);
    hide Inv, AllVE, AllApart, Reads, Writes;
    forall r | r in s.inflight ensures AllApart(Writes(env, s.inflight[r].op), Reads(env, s.phase.cmd.op)) {
      FlightFacts(env, s, r);
      FlightIsVE(env, s, r);
    }
  }

  lemma MoveRolls(book: Book, id: nat, l: Loc)
    requires id in book && book[id].loc.Finished? ==> l.Finished?
    ensures RollsOn(book, SetLoc(book, id, l))
  {
  }

  lemma SameRolls(book: Book)
    ensures RollsOn(book, book)
  {
  }

  lemma CancelRolls(s: State)
    ensures RollsOn(s.hist.book, DoCancelAll(s).hist.book)
  {
    hide Outstanding;
  }

  /** Other steps than a push leave the roll of commands alone, and what is finished stays so. */
  lemma StepRolls(env: Env, s: State, st: Step)
    requires Inv(env, s) && Enabled(env, s, st) && !st.PushReq?
    ensures var t := Next(env, s, st);
      && t.hist.pushed == s.hist.pushed && RollsOn(s.hist.book, t.hist.book)
      && (!st.Submit? ==> t.hist.raced == s.hist.raced)
  {
    hide Inv, OnReply, OnVH, HostEffect, VhEffect, Handle, MsgOf, RefsOk, OpOk, Insert, Unused, InTheClear, SetLoc, Outstanding;
    if Holding(s.phase) { InHand(env, s); }
    hide RollsOn;
    SameRolls(s.hist.book);
    match st
    case Receive =>
      if s.wire[0].req in s.inflight {
        OldestReply(env, s);
        MoveRolls(s.hist.book, s.inflight[s.wire[0].req].id, Held);
      }
    case Complete => MoveRolls(s.hist.book, s.phase.cmd.id, Finished(s.phase.out));
    case Pop => HeadQueued(env, s); MoveRolls(s.hist.book, s.request[0].id, Held);
    case PutBack => MoveRolls(s.hist.book, s.phase.cmd.id, Queued);
    case Submit => MoveRolls(s.hist.book, s.phase.cmd.id, Flying(s.nextReq));
    case Abort => CancelRolls(s);
    case PeerDeath => CancelRolls(s);
    case _ =>
  }

  lemma StepKeptApart(env: Env, s: State, st: Step)
    requires Inv(env, s) && Enabled(env, s, st) && KeptApart(env, s.hist.pushed, s.hist.book)
    requires st.PushReq? ==> SafeToPush(env, s.hist, s.pending[st.tid].cmd.op)
    ensures var t := Next(env, s, st); KeptApart(env, t.hist.pushed, t.hist.book) && (t.hist.raced ==> s.hist.raced)
  {
    hide Inv, KeptApart, SafeToPush, RollsOn;
    if st.PushReq? {
      PushReady(env, s, st.tid);
      forall id | id in s.hist.book ensures s.hist.book[id].pos < |s.hist.pushed| { BookPush(env, s, id); }
      KeptPush(env, s.hist, Push(s.pending[st.tid].cmd, st.tid, s.session));
    } else {
      StepRolls(env, s, st);
      KeptRoll(env, s.hist.pushed, s.hist.book, Next(env, s, st).hist.book);
      if st.Submit? { SentInTheClear(env, s); }
    }
  }

  /** If every push was safe when it was made, no command is ever sent too early. */
  lemma {:induction false} CarefulKeepsApart(env: Env, s: State, steps: seq<Step>)
    requires Inv(env, s) && KeptApart(env, s.hist.pushed, s.hist.book) && Run(env, s, steps).Some? && Careful(env, s, steps)
    ensures var t := Run(env, s, steps).value; KeptApart(env, t.hist.pushed, t.hist.book) && (t.hist.raced ==> s.hist.raced)
  {
    hide Inv, KeptApart, SafeToPush, Next;
    if steps != [] {
      var front := steps[..|steps| - 1];
      RunKeeps(env, s, front);
      CarefulKeepsApart(env, s, front);
      StepKeptApart(env, Run(env, s, front).value, steps[|steps| - 1]);
    }
  }

  /** A caller who pushes with care from the start, or from a state in which everything is finished, never races. */
  lemma CarefulNeverRaces(env: Env, s: State, steps: seq<Step>)
    requires Reachable(env, s) && (forall id :: id in s.hist.book ==> s.hist.book[id].loc.Finished?) && !s.hist.raced
    requires Run(env, s, steps).Some? && Careful(env, s, steps)
    ensures !Run(env, s, steps).value.hist.raced
  {
    hide Inv, Reachable, Run, Careful;
    ReachableInv(env, s);
    CarefulKeepsApart(env, s, steps);
  }

  // ---- what the program text shows ----

  /** No VE command reads host memory that an earlier one, not separated by a VH command, writes. */
  ghost predicate HazardFree(env: Env, pushed: seq<Push>) {
    forall i, j :: 0 <= i < j < |pushed| && AllVE(pushed, i, j + 1) ==>
      AllApart(Writes(env, pushed[i].cmd.op), Reads(env, pushed[j].cmd.op))
  }

  lemma HazardFreePrefix(env: Env, pushed: seq<Push>, p: Push)
    requires HazardFree(env, pushed + [p])
    ensures HazardFree(env, pushed)
  {
    forall i, j | 0 <= i < j < |pushed| && AllVE(pushed, i, j + 1)
      ensures AllApart(Writes(env, pushed[i].cmd.op), Reads(env, pushed[j].cmd.op))
    {
      assert AllVE(pushed + [p], i, j + 1);
      assert (pushed + [p])[i] == pushed[i] && (pushed + [p])[j] == pushed[j];
    }
  }

  lemma HazardFreeSafe(env: Env, s: State, q: Push)
    requires Inv(env, s) && HazardFree(env, s.hist.pushed + [q])
    ensures SafeToPush(env, s.hist, q.cmd.op)
  {
    hide Inv, AllApart, Reads, Writes;
    var h := s.hist;
    var pushed := h.pushed + [q];
    if !q.cmd.op.IsVH() {
      forall id | id in h.book && !h.book[id].loc.Finished? && h.book[id].pos < |h.pushed| && AllVE(h.pushed, h.book[id].pos, |h.pushed|)
        ensures AllApart(Writes(env, h.book[id].cmd.op), Reads(env, q.cmd.op))
      {
        BookPush(env, s, id);
        assert pushed[h.book[id].pos] == h.pushed[h.book[id].pos] && pushed[|h.pushed|] == q;
        assert AllVE(pushed, h.book[id].pos, |h.pushed| + 1);
      }
    }
  }

  /** A program without hazards is careful however it is run. */
  lemma {:induction false} HazardFreeIsCareful(env: Env, s: State, steps: seq<Step>)
    requires Inv(env, s) && Run(env, s, steps).Some? && HazardFree(env, Run(env, s, steps).value.hist.pushed)
    ensures Careful(env, s, steps)
  {
    hide Inv, HazardFree, SafeToPush, Next;
    if steps != [] {
      var front, last := steps[..|steps| - 1], steps[|steps| - 1];
      var m := Run(env, s, front).value;
      RunKeeps(env, s, front);
      PushOrNot(env, m, last);
      if last.PushReq? {
        var q := Push(m.pending[last.tid].cmd, last.tid, m.session);
        HazardFreePrefix(env, m.hist.pushed, q);
        HazardFreeSafe(env, m, q);
      }
      HazardFreeIsCareful(env, s, front);
    }
  }

  lemma PushOrNot(env: Env, s: State, st: Step)
    requires Enabled(env, s, st)
    ensures Next(env, s, st).hist.pushed ==
      if st.PushReq? then s.hist.pushed + [Push(s.pending[st.tid].cmd, st.tid, s.session)] else s.hist.pushed
  {
    hide OnReply, OnVH, HostEffect, VhEffect, Handle, MsgOf, RefsOk, OpOk, SetLoc, Insert, Unused, InTheClear;
  }

  lemma HazardFreeNeverRaces(env: Env, s: State)
    requires Reachable(env, s) && HazardFree(env, s.hist.pushed)
    ensures !s.hist.raced
  {
    hide Inv, HazardFree, Careful;
    var s0, steps :| Init(s0) && Run(env, s0, steps) == Some(s);
    InitInv(env, s0);
    HazardFreeIsCareful(env, s0, steps);
    CarefulKeepsApart(env, s0, steps);
  }
}
