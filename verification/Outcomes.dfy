/** What the status of a transfer or of a large call stands for, whatever went wrong in the run. */
module Outcomes {
  import opened Memory
  import opened Protocol
  import opened Engine
  import opened EngineInv
  import opened EngineChains
  import opened EngineTheorems
  import opened Sequential
  import opened Transfer
  import opened LargeCall
  import opened Submissions

  ghost predicate AllAnswered(book: Book, block: seq<Push>) {
    forall i :: 0 <= i < |block| ==> WasAnswered(book, block[i].cmd.id)
  }

  /** Nobody can wait for these requests any more, and nothing of them is left in the completion map. */
  ghost predicate AllGone(l: Ledger, block: seq<Push>) {
    forall i :: 0 <= i < |block| ==> block[i].cmd.id !in l.rem && block[i].cmd.id !in l.completion
  }

  // ---- transfers ----

  /** Nobody outside the chain took the result of one of its transfers but the last. */
  ghost predicate ChainKept(delivered: map<nat, Recipient>, block: seq<Push>) {
    forall i :: 0 <= i < |block| - 1 && block[i].cmd.id in delivered ==>
      delivered[block[i].cmd.id] == ToCommand(block[i + 1].cmd.id)
  }

  lemma ChainedIsChain(book: Book, block: seq<Push>)
    requires block != [] && Chained(block) && OnRecord(book, block)
    ensures IsChain(book, Ids(block))
  {
    var ids := Ids(block);
    forall i | 0 <= i < |ids| ensures ids[i] in book && book[ids[i]].cmd == block[i].cmd { }
    assert block[..0] == [];
    forall i | 0 < i < |ids| ensures book[ids[i]].cmd.op.prev == Some(ids[i - 1]) {
      assert block[..i][i - 1] == block[i - 1];
    }
  }

  /** The request id that a fragmented transfer returns ends OK exactly if all its fragments were sent and
  answered without error. */
  lemma TransferVerdict(env: Env, s: State, block: seq<Push>)
    requires Reachable(env, s) && block != [] && Chained(block) && OnRecord(s.hist.book, block)
    requires ChainKept(s.ledger.delivered, block)
    ensures EndedOk(s.hist.book, block[|block| - 1].cmd.id) <==> AllAnswered(s.hist.book, block)
  {
    hide Reachable, EndedOk, WasAnswered, Chained, OnRecord;
    var ids := Ids(block);
    ChainedIsChain(s.hist.book, block);
    ChainSound(env, s, ids);
    assert AllAnswered(s.hist.book, block) ==> forall i :: 0 <= i < |ids| ==> WasAnswered(s.hist.book, ids[i]);
    if forall i :: 0 <= i < |ids| ==> WasAnswered(s.hist.book, ids[i]) {
      forall i | 0 <= i < |block| ensures WasAnswered(s.hist.book, block[i].cmd.id) { assert ids[i] == block[i].cmd.id; }
    }
  }

  /** A chain whose last transfer ended OK: every fragment was answered, and only the last id can be left. */
  lemma TransferOk(env: Env, s: State, block: seq<Push>)
    requires Reachable(env, s) && Chained(block) && OnRecord(s.hist.book, block) && PartOk(s.hist.book, LastId(block))
    ensures AllAnswered(s.hist.book, block) && (block != [] ==> AllGone(s.ledger, block[..|block| - 1]))
  {
    if block != [] {
      hide Reachable, EndedOk, WasAnswered, Chained, OnRecord;
      var ids := Ids(block);
      ChainedIsChain(s.hist.book, block);
      ChainOkMeansAll(env, s, ids);
      forall i | 0 <= i < |block| ensures WasAnswered(s.hist.book, block[i].cmd.id) { assert ids[i] == block[i].cmd.id; }
      forall i | 0 <= i < |block| - 1 ensures block[i].cmd.id !in s.ledger.rem && block[i].cmd.id !in s.ledger.completion {
        assert ids[i] == block[i].cmd.id && Consumed(s, ids[i], ids[i + 1]);
      }
    }
  }

  lemma PartVerdict(env: Env, s: State, block: seq<Push>)
    requires Reachable(env, s) && Chained(block) && OnRecord(s.hist.book, block) && ChainKept(s.ledger.delivered, block)
    ensures PartOk(s.hist.book, LastId(block)) <==> AllAnswered(s.hist.book, block)
  {
    hide Reachable, EndedOk, WasAnswered, Chained, OnRecord, ChainKept;
    if block != [] { TransferVerdict(env, s, block); }
  }

  // ---- large calls with all their parts ----

  /** Nobody but its successor in the chain, or the join, took the result of a part. */
  ghost predicate BlockKept(s: State, block: seq<Push>, nw: nat)
    requires LinkedParts(block, nw)
  {
    var n := |block| - 1;
    var join := block[n].cmd;
    && ChainKept(s.ledger.delivered, block[..nw]) && ChainKept(s.ledger.delivered, block[nw + 1..n])
    && PartKept(s, join.op.write, join.id) && PartKept(s, join.op.call, join.id) && PartKept(s, join.op.read, join.id)
  }

  /** The join of a split call, whatever went wrong in the run: it reports OK exactly if every fragment and the
  call itself were sent and answered without error, and then returns the value of the call; on OK no other id of
  the block can be waited for or is left behind. */
  lemma SplitCallVerdict(env: Env, s: State, block: seq<Push>, nw: nat)
    requires Reachable(env, s) && LinkedParts(block, nw) && OnRecord(s.hist.book, block) && BlockKept(s, block, nw)
    requires block[nw].cmd.op.Call?
    requires var id := block[|block| - 1].cmd.id;
      s.hist.book[id].loc.Finished? && s.hist.book[id].loc.out.fate == Ran
    ensures var out := s.hist.book[block[|block| - 1].cmd.id].loc.out;
      && (out.res.status == Ok <==> AllAnswered(s.hist.book, block[..|block| - 1]))
      && s.hist.book[block[nw].cmd.id].loc.Finished?
      && out.res.retval == s.hist.book[block[nw].cmd.id].loc.out.res.retval
      && (out.res.status == Ok ==> AllGone(s.ledger, block[..|block| - 1]))
  {
    hide Reachable, EndedOk, WasAnswered, Chained, ChainKept, LastId, AllGone;
    var n := |block| - 1;
    var ws, rs := block[..nw], block[nw + 1..n];
    JoinSound(env, s, block[n].cmd.id);
    PartVerdict(env, s, ws);
    PartVerdict(env, s, rs);
    CallVerdict(env, s, block[nw].cmd.id);
    AnsweredParts(s.hist.book, block, nw);
    if s.hist.book[block[n].cmd.id].loc.out.res.status == Ok { PartsGone(env, s, block, nw); }
  }

  lemma AnsweredParts(book: Book, block: seq<Push>, nw: nat)
    requires nw < |block| - 1
    ensures AllAnswered(book, block[..|block| - 1]) <==>
      AllAnswered(book, block[..nw]) && WasAnswered(book, block[nw].cmd.id) && AllAnswered(book, block[nw + 1..|block| - 1])
  {
    hide WasAnswered;
    var n := |block| - 1;
    var all, ws, rs := block[..n], block[..nw], block[nw + 1..n];
    if AllAnswered(book, all) {
      assert all[nw] == block[nw];
      forall i | 0 <= i < |ws| ensures WasAnswered(book, ws[i].cmd.id) { assert ws[i] == all[i]; }
      forall i | 0 <= i < |rs| ensures WasAnswered(book, rs[i].cmd.id) { assert rs[i] == all[nw + 1 + i]; }
    }
    if AllAnswered(book, ws) && WasAnswered(book, block[nw].cmd.id) && AllAnswered(book, rs) {
      forall i | 0 <= i < |all| ensures WasAnswered(book, all[i].cmd.id) {
        if i < nw { assert all[i] == ws[i]; } else if i > nw { assert all[i] == rs[i - nw - 1]; }
      }
    }
  }

  /** One chain of a join that ended OK: its last transfer went to the join, the others to their successors. */
  lemma PartGone(env: Env, s: State, block: seq<Push>, join: nat)
    requires Reachable(env, s) && Chained(block) && OnRecord(s.hist.book, block) && PartOk(s.hist.book, LastId(block))
    requires block != [] ==> Consumed(s, block[|block| - 1].cmd.id, join)
    ensures AllGone(s.ledger, block)
  {
    hide Reachable, Chained, OnRecord, PartOk;
    TransferOk(env, s, block);
    forall i | 0 <= i < |block| ensures block[i].cmd.id !in s.ledger.rem && block[i].cmd.id !in s.ledger.completion {
      if i < |block| - 1 { assert block[..|block| - 1][i] == block[i]; }
    }
  }

  lemma PartsGone(env: Env, s: State, block: seq<Push>, nw: nat)
    requires Reachable(env, s) && LinkedParts(block, nw) && OnRecord(s.hist.book, block)
    requires var loc := s.hist.book[block[|block| - 1].cmd.id].loc; loc.Finished? && loc.out.res.status == Ok
    ensures AllGone(s.ledger, block[..|block| - 1])
  {
    var n := |block| - 1;
    assert EndedOk(s.hist.book, block[n].cmd.id) && s.hist.book[block[n].cmd.id].cmd == block[n].cmd;
    hide Reachable, EndedOk, Chained, AllGone, OnRecord;
    var ws, rs := block[0..nw], block[nw + 1..n];
    assert block[..nw] == ws;
    JoinOkParts(env, s, block[n].cmd.id);
    RecordPart(s.hist.book, block, 0, nw);
    RecordPart(s.hist.book, block, nw + 1, n);
    PartGone(env, s, ws, block[n].cmd.id);
    PartGone(env, s, rs, block[n].cmd.id);
    GoneParts(s.ledger, block, nw);
  }

  lemma GoneParts(l: Ledger, block: seq<Push>, nw: nat)
    requires nw < |block| - 1 && AllGone(l, block[..nw]) && AllGone(l, block[nw + 1..|block| - 1])
    requires block[nw].cmd.id !in l.rem && block[nw].cmd.id !in l.completion
    ensures AllGone(l, block[..|block| - 1])
  {
    var n := |block| - 1;
    var all, ws, rs := block[..n], block[..nw], block[nw + 1..n];
    forall i | 0 <= i < |all| ensures all[i].cmd.id !in l.rem && all[i].cmd.id !in l.completion {
      if i < nw { assert all[i] == ws[i]; } else if i > nw { assert all[i] == rs[i - nw - 1]; }
    }
  }

  // ---- large calls with any of their parts ----

  /** A transfer the call needs was submitted to its last fragment, and every fragment was answered. */
  ghost predicate TransferMade(env: Env, cfg: Settings, wanted: bool, send: bool, size: nat, book: Book, block: seq<Push>) {
    wanted ==>
      && FragSize(env, cfg, send, size) > 0 && |block| == |Pieces(0, size, FragSize(env, cfg, send, size))|
      && AllAnswered(book, block)
  }

  /** All of the call happened: the transfers it needs, complete, and the call itself. */
  ghost predicate CallMade(env: Env, c: CallSpec, send: Settings, recv: Settings, book: Book, block: seq<Push>, nw: nat, nc: nat)
    requires nw + nc < |block| && HeadLimit(env, |c.regs|) < c.size
  {
    var rest := c.size - HeadLimit(env, |c.regs|);
    && nc == 1 && WasAnswered(book, block[nw].cmd.id)
    && TransferMade(env, send, c.cin, true, rest, book, block[..nw])
    && TransferMade(env, recv, c.cout, false, rest, book, block[nw + nc..|block| - 1])
  }

  /** A part that was accepted and ended OK was transferred completely; one that was not accepted was not. */
  lemma PartMade(env: Env, s: State, cfg: Settings, wanted: bool, tid: Tid, send: bool, dst: nat, src: nat, size: nat,
                 id: Option<nat>, block: seq<Push>)
    requires Reachable(env, s) && PartOf(env, cfg, wanted, tid, send, dst, src, size, id, block)
    requires OnRecord(s.hist.book, block) && PartOk(s.hist.book, id)
    ensures TransferMade(env, cfg, wanted, send, size, s.hist.book, block) <==> (wanted ==> id.Some?)
  {
    hide Reachable, PartOk, Linked, OnRecord, Pieces, FragSize, AllAnswered;
    if wanted && id.Some? {
      LinkedIsChained(block, tid, send, dst, src, Pieces(0, size, FragSize(env, cfg, send, size)));
      TransferOk(env, s, block);
    }
  }

  /** doCallAsync queues the join even when the submission of a part was turned down.  A join that reports OK stands
  for the whole call if and only if it names the call and each transfer the call needs. */
  lemma JoinStandsForAll(env: Env, s: State, c: CallSpec, send: Settings, recv: Settings, tid: Tid, block: seq<Push>, nw: nat, nc: nat)
    requires Reachable(env, s) && CallBlock(env, c, send, recv, tid, block, nw, nc) && OnRecord(s.hist.book, block)
    requires EndedOk(s.hist.book, block[|block| - 1].cmd.id)
    ensures CallMade(env, c, send, recv, s.hist.book, block, nw, nc) <==> AllAccepted(c, block[|block| - 1].cmd.op)
  {
    hide Reachable, EndedOk, WasAnswered, PartOf, TransferMade, FragSize;
    var n, head := |block| - 1, HeadLimit(env, |c.regs|);
    var j := block[n].cmd;
    JoinOkParts(env, s, j.id);
    PartMade(env, s, send, c.cin, tid, true, c.top + head, c.stack + head, c.size - head, j.op.write, block[..nw]);
    PartMade(env, s, recv, c.cout, tid, false, c.stack + head, c.top + head, c.size - head, j.op.read, block[nw + nc..n]);
    if j.op.call.Some? {
      assert block[nw..nw + nc][0] == block[nw];
      CallVerdict(env, s, block[nw].cmd.id);
    }
  }

  // ---- the stack buffer ----

  /** The stack buffer of a split call is released by its join only, once, when all its other requests are finished. */
  lemma SplitCallFrees(env: Env, s: State, c: CallSpec, send: Settings, recv: Settings, a: nat, b: nat, i: nat, k: nat)
    requires Reachable(env, s) && a <= b <= |s.hist.pushed| && WholeCall(env, c, send, recv, s.hist.pushed[a..b])
    requires i < |s.hist.freed| && a <= k < b && s.hist.freed[i] == s.hist.pushed[k].cmd.id
    ensures k == b - 1
    ensures forall x :: a <= x < b - 1 ==>
      s.hist.pushed[x].cmd.id in s.hist.book && s.hist.book[s.hist.pushed[x].cmd.id].loc.Finished?
    ensures forall j :: 0 <= j < |s.hist.freed| && s.hist.freed[j] == s.hist.pushed[k].cmd.id ==> j == i
  {
    hide Reachable, Inv, WholeCall;
    ReachableInv(env, s);
    FreedOnceAndLast(env, s);
    PushedAt(env, s);
    BlockEnds(env, c, send, recv, s.hist.pushed[a..b]);
    if k < b - 1 { PartsKeep(env, c, send, recv, s.hist.pushed[a..b], k - a); }
    forall x | a <= x < b - 1
      ensures s.hist.pushed[x].cmd.id in s.hist.book && s.hist.book[s.hist.pushed[x].cmd.id].loc.Finished?
    {
      assert FreedBefore(s.hist.book, s.hist.freed[i], s.hist.pushed[x].cmd.id);
    }
  }

  lemma PushedAt(env: Env, s: State)
    requires Inv(env, s)
    ensures forall x :: 0 <= x < |s.hist.pushed| ==>
      var id := s.hist.pushed[x].cmd.id; id in s.hist.book && s.hist.book[id].cmd == s.hist.pushed[x].cmd && s.hist.book[id].pos == x
  {
    hide Backward, Queue, Hand, Flight, Wire, Slotted, Books, Issued, Sessions, Fifo, Barrier;
  }

  /** Of the requests of a split call only the join releases the buffer. */
  lemma PartsKeep(env: Env, c: CallSpec, send: Settings, recv: Settings, block: seq<Push>, k: nat)
    requires WholeCall(env, c, send, recv, block) && k < |block| - 1
    ensures !Releases(block[k].cmd.op) && block[|block| - 1].cmd.op.Join?
  {
    hide Pieces, FragSize, SplitOps, LastId;
    var rest := c.size - HeadLimit(env, |c.regs|);
    var nw := if c.cin then |Pieces(0, rest, FragSize(env, send, true, rest))| else 0;
    var n := |block| - 1;
    assert Cmds(block)[nw] == block[nw].cmd;
    if k < nw { assert block[..nw][k] == block[k]; }
    if nw < k { assert block[nw + 1..n][k - nw - 1] == block[k]; }
  }

  lemma BlockEnds(env: Env, c: CallSpec, send: Settings, recv: Settings, block: seq<Push>)
    requires WholeCall(env, c, send, recv, block)
    ensures block != [] && block[|block| - 1].cmd.op.Join?
  {
    hide Pieces, FragSize, SplitOps, LastId;
  }
}
