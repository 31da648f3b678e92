/** What a submitted call comes to, from the state in which its arguments were taken to the state in which its
result is there. */
module EndToEnd {
  import opened Memory
  import opened Protocol
  import opened Engine
  import opened EngineInv
  import opened EngineChains
  import opened Sequential
  import opened Transfer
  import opened Marshalling
  import opened LargeCall
  import opened Submissions
  import opened Races

  // ---- how programs grow ----

  /** What was pushed and written stays so, in its place; new writes come after what was pushed before. */
  ghost predicate Longer(a: History, b: History) {
    && a.pushed <= b.pushed && a.init == b.init && (b.clean ==> a.clean) && (a.raced ==> b.raced)
    && a.stores <= b.stores
    && (forall i :: |a.stores| <= i < |b.stores| ==> |a.pushed| <= b.stores[i].pos)
  }

  lemma NoStore(env: Env, s: State, st: Step)
    requires Enabled(env, s, st) && !st.HostWrite?
    ensures var h := Next(env, s, st).hist; h.init == s.hist.init && h.stores == s.hist.stores
  {
    hide OnReply, OnVH, HostEffect, VhEffect, Handle, MsgOf, RefsOk, OpOk, SetLoc, Insert, Unused, InTheClear, Peek, Outstanding;
    match st
    case Receive => assert DoReceive(s).hist.stores == s.hist.stores;
    case Submit => assert DoSubmit(env, s).hist.stores == s.hist.stores;
    case RunVH => assert DoRunVH(env, s).hist.stores == s.hist.stores;
    case Abort => assert DoCancelAll(s).hist.stores == s.hist.stores;
    case PeerDeath => assert DoCancelAll(s).hist.stores == s.hist.stores;
    case _ =>
  }

  lemma OneStore(env: Env, s: State, st: Step)
    requires Enabled(env, s, st) && st.HostWrite?
    ensures var h := Next(env, s, st).hist;
      h.init == s.hist.init && h.stores == s.hist.stores + [Stored(|s.hist.pushed|, st.addr, st.bytes)]
  {
    hide Unused;
  }

  lemma FlagsStay(env: Env, s: State, st: Step)
    requires Enabled(env, s, st)
    ensures var h := Next(env, s, st).hist; (h.clean ==> s.hist.clean) && (s.hist.raced ==> h.raced)
  {
    hide OnReply, OnVH, HostEffect, VhEffect, Handle, MsgOf, RefsOk, OpOk, SetLoc, Insert, Unused, InTheClear, Peek, Outstanding;
  }

  lemma StepLonger(env: Env, s: State, st: Step)
    requires Enabled(env, s, st)
    ensures Longer(s.hist, Next(env, s, st).hist)
  {
    hide Next, Enabled;
    PushOrNot(env, s, st);
    if st.HostWrite? { OneStore(env, s, st); } else { NoStore(env, s, st); }
    FlagsStay(env, s, st);
  }

  lemma LongerMore(a: History, b: History, c: History)
    requires Longer(a, b) && Longer(b, c)
    ensures Longer(a, c)
  {
    forall i | |a.stores| <= i < |c.stores| ensures |a.pushed| <= c.stores[i].pos {
      if i < |b.stores| { assert c.stores[i] == b.stores[i]; }
    }
  }

  lemma {:induction false} RunLonger(env: Env, s: State, steps: seq<Step>)
    requires Run(env, s, steps).Some?
    ensures Longer(s.hist, Run(env, s, steps).value.hist)
  {
    hide Next, Enabled;
    if steps != [] {
      var front := steps[..|steps| - 1];
      RunLonger(env, s, front);
      hide Longer;
      var m := Run(env, s, front).value;
      StepLonger(env, m, steps[|steps| - 1]);
      LongerMore(s.hist, m.hist, Run(env, s, steps).value.hist);
    }
  }

  lemma {:induction false} PutMore(h: Mem, es: seq<Stored>, more: seq<Stored>, lo: int, hi: int)
    ensures Put(h, es + more, lo, hi) == Put(Put(h, es, lo, hi), more, lo, hi)
  {
    if more == [] {
      assert es + more == es;
    } else {
      assert (es + more)[..|es + more| - 1] == es + more[..|more| - 1];
      PutMore(h, es, more[..|more| - 1], lo, hi);
    }
  }

  /** The turn of a command that was to come next, in the longer program: only writes made meanwhile are new. */
  lemma {:induction false} AfterLonger(env: Env, p: Program, q: Program, k: nat)
    requires k <= |p.pushed| && p.pushed <= q.pushed && p.init == q.init && p.stores <= q.stores
    requires forall i :: |p.stores| <= i < |q.stores| ==> |p.pushed| <= q.stores[i].pos
    ensures After(env, q, k).ve == After(env, p, k).ve
    ensures After(env, q, k).host ==
      if k < |p.pushed| then After(env, p, k).host
      else Put(After(env, p, k).host, q.stores[|p.stores|..], k - 1, k)
  {
    hide SeqStep, Put;
    var more := q.stores[|p.stores|..];
    assert q.stores == p.stores + more;
    forall i | 0 <= i < |more| ensures more[i] == q.stores[|p.stores| + i] { }
    if k == 0 {
      PutMore(p.init.host, p.stores, more, -1, 0);
      if k < |p.pushed| { PutNone(After(env, p, 0).host, more, -1, 0); }
    } else {
      AfterLonger(env, p, q, k - 1);
      var w := SeqStep(env, After(env, p, k - 1), p.pushed[k - 1].cmd.op);
      PutMore(w.host, p.stores, more, k - 1, k);
      if k < |p.pushed| { PutNone(Put(w.host, p.stores, k - 1, k), more, k - 1, k); }
    }
  }

  // ---- memory between submission and turn ----

  /** Commands that were not answered yet are not finished. */
  lemma Unanswered(env: Env, s: State, k: nat)
    requires Inv(env, s) && !s.hist.aborted && Begun(s) - |s.wire| <= k < |s.hist.pushed|
    requires Sim(env, Prog(s.hist), Begun(s), s.wire, s.served, s.hist.book, s.ve, s.host)
    ensures s.hist.pushed[k].cmd.id in s.hist.book && !s.hist.book[s.hist.pushed[k].cmd.id].loc.Finished?
  {
    hide Backward, Wire, Books, Issued, Sessions, Fifo, Barrier, After, HostNow, MsgOf, Handle;
    var base := Begun(s) - |s.wire|;
    if k < Begun(s) {
      var slot := s.wire[k - base];
      assert SlotSim(env, Prog(s.hist), base + (k - base), slot, k - base < s.served, s.hist.book);
      assert slot.req in s.inflight && s.inflight[slot.req].id == slot.id;
    } else if k >= Front(s) {
      assert s.request[k - Front(s)] == s.hist.pushed[k].cmd;
    }
  }

  /** Bytes that no unfinished command writes are, for a command pushed next, what they are now. */
  lemma BytesForNext(env: Env, s: State, addr: nat, len: nat)
    requires Reachable(env, s) && s.hist.clean && !s.hist.raced && addr + len <= |s.host|
    requires Unwritten(env, s.hist.book, Region(addr, len))
    ensures var w := After(env, Prog(s.hist), |s.hist.pushed|);
      |w.host| == |s.host| && |w.ve| == |s.ve| && Read(w.host, addr, len) == Read(s.host, addr, len)
  {
    hide Reachable, Run, Inv, After, Put, SlotSim, Untouched, Values, Read, Unwritten;
    ReachableSim(env, s);
    NotAborted(env, s);
    var p, n, base := Prog(s.hist), |s.hist.pushed|, Begun(s) - |s.wire|;
    AfterSizes(env, p, n);
    AfterSizes(env, p, base);
    AfterSizes(env, p, base + s.served);
    var w := After(env, p, n);
    forall x | addr <= x < addr + len ensures w.host[x] == s.host[x] {
      forall k | base <= k < n ensures Outside(x, Writes(env, p.pushed[k].cmd.op)) {
        Unanswered(env, s, k);
        BookPush(env, s, p.pushed[k].cmd.id);
        Avoids(env, s.hist.book, p.pushed[k].cmd.id, Region(addr, len), x);
        PushedOnce(env, s, k);
      }
      AfterAt(env, p, base, n, x);
    }
    SameRange(w.host, s.host, addr, len);
  }

  /** No command that is not finished writes to the region. */
  ghost predicate Unwritten(env: Env, book: Book, r: Region) {
    forall id :: id in book && !book[id].loc.Finished? ==> AllApart([r], Writes(env, book[id].cmd.op))
  }

  lemma Avoids(env: Env, book: Book, id: nat, r: Region, x: nat)
    requires Unwritten(env, book, r) && id in book && !book[id].loc.Finished? && r.Has(x)
    ensures Outside(x, Writes(env, book[id].cmd.op))
  {
    var rs := Writes(env, book[id].cmd.op);
    forall i | 0 <= i < |rs| ensures !rs[i].Has(x) { assert Apart([r][0], rs[i]); }
  }

  lemma PushedOnce(env: Env, s: State, k: nat)
    requires Inv(env, s) && k < |s.hist.pushed|
    ensures var c := s.hist.pushed[k].cmd; c.id in s.hist.book && s.hist.book[c.id].pos == k && s.hist.book[c.id].cmd == c
  {
    hide Backward, Queue, Hand, Flight, Wire, Slotted, Books, Issued, Sessions, Fifo, Barrier;
  }

  lemma SameRange(m: Mem, n: Mem, a: nat, len: nat)
    requires |m| == |n| && a + len <= |m| && forall x :: a <= x < a + len ==> m[x] == n[x]
    ensures Read(m, a, len) == Read(n, a, len)
  {
  }

  /** The image is in the stack buffer in `s`, and until the commands of the call, at `a` to `b` in `t`, are all
  pushed nobody else uses the memory of the call. */
  ghost predicate Arranged(env: Env, s: State, t: State, c: CallSpec, image: seq<Byte>, a: nat, b: nat) {
    && |s.hist.pushed| <= a <= b <= |t.hist.pushed|
    && SpecOk(c, World(s.ve, s.host)) && Read(s.host, c.stack, c.size) == image
    && Unwritten(env, s.hist.book, Region(c.stack, c.size))
    && (forall k :: |s.hist.pushed| <= k < a ==> AllApart(Writes(env, t.hist.pushed[k].cmd.op), [Region(c.stack, c.size)]))
    && (forall i :: |s.hist.stores| <= i < |t.hist.stores| && t.hist.stores[i].pos < b ==>
          AllApart([Area(t.hist.stores[i])], CallRegions(c)))
  }

  /** In the world in which the call gets its turn the image is in the stack buffer. */
  lemma ImageInTurn(env: Env, s: State, steps: seq<Step>, c: CallSpec, image: seq<Byte>, a: nat, b: nat)
    requires Reachable(env, s) && Run(env, s, steps).Some?
    requires var t := Run(env, s, steps).value;
      a < b && Arranged(env, s, t, c, image, a, b) && t.hist.clean && !t.hist.raced
    ensures var t := Run(env, s, steps).value; a < |t.hist.pushed| && var w := After(env, Prog(t.hist), a);
      && Read(w.host, c.stack, c.size) == image && SpecOk(c, w) && |w.host| == |s.host|
      && Clear(t.hist.stores, a, b - 1, CallRegions(c))
  {
    hide Reachable, Run, After, Put, Unwritten, Inv;
    var t := Run(env, s, steps).value;
    RunLonger(env, s, steps);
    ReachableMore(env, s, steps);
    BytesForNext(env, s, c.stack, c.size);
    OrderedStores(env, t);
    OrderedStores(env, s);
    var p, q, n, m := Prog(s.hist), Prog(t.hist), |s.hist.pushed|, |s.hist.stores|;
    AfterLonger(env, p, q, n);
    AfterSizes(env, q, a);
    AfterSizes(env, q, n);
    var wn, w := After(env, q, n), After(env, q, a);
    forall x | c.stack <= x < c.stack + c.size ensures w.host[x] == After(env, p, n).host[x] {
      LaterNotAt(s, t, c, a, b, x);
      PutElsewhere(After(env, p, n).host, t.hist.stores[m..], n - 1, n, x);
      forall k | n <= k < a ensures Outside(x, Writes(env, q.pushed[k].cmd.op)) {
        OutsideOf(Writes(env, q.pushed[k].cmd.op), Region(c.stack, c.size), x);
      }
      AfterAt(env, q, n, a, x);
      PutElsewhere(wn.host, q.stores, n, a, x);
    }
    SameRange(w.host, After(env, p, n).host, c.stack, c.size);
    EarlyStores(s, t);
  }

  lemma EarlyStores(s: State, t: State)
    requires s.hist.stores <= t.hist.stores && Ordered(s.hist.stores, |s.hist.pushed|)
    ensures forall i :: 0 <= i < |s.hist.stores| ==> t.hist.stores[i].pos <= |s.hist.pushed|
  {
    forall i | 0 <= i < |s.hist.stores| ensures t.hist.stores[i].pos <= |s.hist.pushed| {
      assert t.hist.stores[i] == s.hist.stores[i];
    }
  }

  lemma OutsideOf(rs: seq<Region>, r: Region, x: nat)
    requires AllApart(rs, [r]) && r.Has(x)
    ensures Outside(x, rs)
  {
    forall i | 0 <= i < |rs| ensures !rs[i].Has(x) { assert Apart(rs[i], [r][0]); }
  }

  lemma LaterNotAt(s: State, t: State, c: CallSpec, a: nat, b: nat, x: nat)
    requires s.hist.stores <= t.hist.stores && |s.hist.pushed| <= a < b && Region(c.stack, c.size).Has(x)
    requires Ordered(s.hist.stores, |s.hist.pushed|)
    requires forall i :: |s.hist.stores| <= i < |t.hist.stores| && t.hist.stores[i].pos < b ==>
      AllApart([Area(t.hist.stores[i])], CallRegions(c))
    ensures NotAt(t.hist.stores[|s.hist.stores|..], |s.hist.pushed| - 1, |s.hist.pushed|, x)
    ensures NotAt(t.hist.stores, |s.hist.pushed|, a, x)
  {
    var m := |s.hist.stores|;
    forall i | m <= i < |t.hist.stores| && t.hist.stores[i].pos < b ensures !Area(t.hist.stores[i]).Has(x) {
      assert Apart([Area(t.hist.stores[i])][0], CallRegions(c)[0]);
    }
    var later := t.hist.stores[m..];
    forall i | 0 <= i < |later| ensures later[i] == t.hist.stores[m + i] { }
    EarlyStores(s, t);
  }

  lemma OrderedStores(env: Env, s: State)
    requires Reachable(env, s)
    ensures Ordered(s.hist.stores, |s.hist.pushed|)
  {
    hide Reachable, Run, Inv, ChainInv, CleanInv, Sim, Values, Untouched, Ordered;
    ReachableSim(env, s);
  }

  // ---- what the kernel receives ----

  /** The message the VE serves next is that of the command pushed at `k`, sent as in its turn, and VE memory is that
  of its turn. */
  ghost predicate Serving(env: Env, p: Program, k: nat, msg: Msg, ve: Mem) {
    && k < |p.pushed| && !p.pushed[k].cmd.op.IsVH() && ve == After(env, p, k).ve
    && msg == MsgOf(env, p.pushed[k].cmd.op, After(env, p, k).host)
  }

  lemma NextServed(env: Env, t: State, k: nat)
    requires Reachable(env, t) && t.hist.clean && !t.hist.raced
    requires t.served < |t.wire| && k == Begun(t) - |t.wire| + t.served
    ensures Serving(env, Prog(t.hist), k, t.wire[t.served].msg, t.ve)
  {
    hide Reachable, Run, Inv, ChainInv, CleanInv, Sim, Untouched, Values, Ordered, Serving;
    ReachableSim(env, t);
    ServedSim(env, Prog(t.hist), Begun(t), t.wire, t.served, t.hist.book, t.ve, t.host);
  }

  lemma ServedSim(env: Env, p: Program, begun: int, wire: seq<Slot>, served: nat, book: Book, ve: Mem, host: Mem)
    requires Sim(env, p, begun, wire, served, book, ve, host) && served < |wire|
    ensures begun - |wire| + served >= 0 && Serving(env, p, begun - |wire| + served, wire[served].msg, ve)
  {
    hide After, HostNow, MsgOf, Handle;
    assert SlotSim(env, p, begun - |wire| + served, wire[served], false, book);
  }

  /** What the message starts: function, registers, stack pointer and memory of the kernel. */
  ghost predicate Starts(msg: Msg, ve: Mem, c: CallSpec, regs: seq<Word>, memory: Mem) {
    if c.cin || c.cout then
      && msg.MCallStk? && msg.fn == c.fn && msg.regs == regs && msg.top == c.top && msg.cout == c.cout
      && (if msg.cin then Write(ve, msg.top, msg.buf) else ve) == memory
    else msg == MCall(c.fn, regs) && ve == memory
  }

  /** A call of `args`, whose image was taken from host memory `h` and put in place by state `s`, in a clean run that
  went on to `t`; its commands are those pushed at `a` to `b`. */
  ghost predicate UnderWay(env: Env, s: State, steps: seq<Step>, t: State, c: CallSpec, args: seq<Arg>, h: Mem, a: nat, b: nat) {
    && Reachable(env, s) && Run(env, s, steps) == Some(t) && t.hist.clean && !t.hist.raced
    && CallOf(c, args) && a < b && Arranged(env, s, t, c, Image(h, args, c.top), a, b)
  }

  /** A call of `args` was submitted in state `s`: the image of the arguments was put into the stack buffer, and then
  the requests of the call were pushed on the way from `mid` to `now`, as callAsync does. */
  ghost predicate CallSubmitted(env: Env, s: State, mid: State, now: State, steps: seq<Step>, c: CallSpec, args: seq<Arg>,
                                block: seq<Push>)
  {
    && Reachable(env, s) && CallOf(c, args) && SpecOk(c, World(s.ve, s.host)) && Stacked(env, s, mid, c, args)
    && Does(env, mid, now, steps, block) && block != []
  }

  /** A call that callAsync accepted is submitted, if its OUT buffers overlap neither each other nor the stack buffer,
  and it is one request for the whole call or a split call. */
  lemma CalledIsSubmitted(env: Env, s: State, mid: State, now: State, steps: seq<Step>, c: CallSpec, args: seq<Arg>, sp: Word,
                          send: Settings, recv: Settings, tid: Tid, id: nat, block: seq<Push>, nw: nat, nc: nat)
    requires Reachable(env, s) && Called(env, s, mid, now, steps, c, args, sp, send, recv, tid, id, block, nw, nc)
    requires OutsApart(args) && Private(c)
    ensures CallSubmitted(env, s, mid, now, steps, c, args, block) && block[|block| - 1].cmd.id == id
    ensures c.top + c.size < TWO64
    ensures FitsOne(env, c) ==> |block| == 1 && block[0].cmd.op == SimpleOp(c)
    ensures !FitsOne(env, c) ==>
      SplitCase(env, c, send, recv, |s.ve|, |s.host|) && CallBlock(env, c, send, recv, tid, block, nw, nc)
  {
    hide Reachable, Run, Does, Stacked, Image, Outs, Regs, CopiesIn, CopiesOut, Parts, FragsOk;
    PreparedCall(env, s, args, c, sp, send, recv);
  }

  /** Any clean run after the submission finds the call under way: the stack buffer was unused in `s`, or the run would
  not be clean. */
  lemma SubmittedIsUnderWay(env: Env, s: State, mid: State, now: State, steps: seq<Step>, more: seq<Step>, t: State,
                            c: CallSpec, args: seq<Arg>, block: seq<Push>)
    requires CallSubmitted(env, s, mid, now, steps, c, args, block)
    requires Run(env, now, more) == Some(t) && t.hist.clean && !t.hist.raced
    ensures var a, b := |s.hist.pushed|, |s.hist.pushed| + |block|;
      && UnderWay(env, mid, steps + more, t, c, args, s.host, a, b) && b <= |t.hist.pushed| && t.hist.pushed[a..b] == block
  {
    assert ArgsOk(args) && c.top < TWO64 by { RegsFit(c, args); }
    var image := Image(s.host, args, c.top);
    hide Reachable, CallOf, Image, Run, Stacked, SpecOk, Appends, Arranged, Longer;
    StackedFacts(env, s, mid, c, args);
    RunConcat(env, mid, steps, more);
    RunLonger(env, now, more);
    RunLonger(env, mid, steps);
    SubmittedArranged(env, mid, now, t, c, image, block);
  }

  lemma RegsFit(c: CallSpec, args: seq<Arg>)
    requires CallOf(c, args)
    ensures ArgsOk(args) && c.top < TWO64
  {
  }

  /** The requests were pushed with the image in place, and the run went on. */
  lemma SubmittedArranged(env: Env, mid: State, now: State, t: State, c: CallSpec, image: seq<Byte>, block: seq<Push>)
    requires SpecOk(c, World(mid.ve, mid.host)) && Read(mid.host, c.stack, c.size) == image
    requires mid.hist.clean ==> Unwritten(env, mid.hist.book, Region(c.stack, c.size))
    requires Appends(mid, now, block) && Longer(mid.hist, now.hist) && Longer(now.hist, t.hist) && t.hist.clean
    ensures var a, b := |mid.hist.pushed|, |mid.hist.pushed| + |block|;
      Arranged(env, mid, t, c, image, a, b) && b <= |t.hist.pushed| && t.hist.pushed[a..b] == block
  {
    hide SpecOk, Read, Unwritten, OnBooks;
    SubmittedStores(now, t, c, |now.hist.pushed|);
    hide AllApart, CallRegions;
  }

  /** The state with the image in place. */
  lemma StackedFacts(env: Env, s: State, mid: State, c: CallSpec, args: seq<Arg>)
    requires Reachable(env, s) && CallOf(c, args) && SpecOk(c, World(s.ve, s.host)) && Stacked(env, s, mid, c, args)
    ensures Reachable(env, mid) && mid.hist.pushed == s.hist.pushed && SpecOk(c, World(mid.ve, mid.host))
    ensures Read(mid.host, c.stack, c.size) == Image(s.host, args, c.top)
    ensures mid.hist.clean ==> Unwritten(env, mid.hist.book, Region(c.stack, c.size))
  {
    hide Reachable, CallOf, Image, Run, Unused, Unwritten;
    StackSize(s.host, c, args);
    ReachableMore(env, s, [HostWrite(c.stack, Image(s.host, args, c.top))]);
    if mid.hist.clean { StackUnwritten(env, s, mid, c, Image(s.host, args, c.top)); }
  }

  lemma StackSize(h: Mem, c: CallSpec, args: seq<Arg>)
    requires CallOf(c, args)
    ensures |Image(h, args, c.top)| == c.size
  {
  }

  lemma StackUnwritten(env: Env, s: State, mid: State, c: CallSpec, image: seq<Byte>)
    requires mid == DoHostWrite(env, s, c.stack, image) && mid.hist.clean && |image| == c.size
    ensures Unwritten(env, mid.hist.book, Region(c.stack, c.size))
  {
  }

  lemma SubmittedStores(now: State, t: State, c: CallSpec, b: nat)
    requires Longer(now.hist, t.hist) && b == |now.hist.pushed|
    ensures forall i :: |now.hist.stores| <= i < |t.hist.stores| && t.hist.stores[i].pos < b ==>
      AllApart([Area(t.hist.stores[i])], CallRegions(c))
  {
  }

  /** Its turn: the world in which the first of its commands runs. */
  ghost predicate Turn(env: Env, t: State, c: CallSpec, args: seq<Arg>, h: Mem, a: nat, b: nat) {
    && Reachable(env, t) && t.hist.clean && !t.hist.raced && CallOf(c, args) && a < b <= |t.hist.pushed|
    && Ordered(t.hist.stores, |t.hist.pushed|) && Clear(t.hist.stores, a, b - 1, CallRegions(c))
    && SpecOk(c, After(env, Prog(t.hist), a))
    && Read(After(env, Prog(t.hist), a).host, c.stack, c.size) == Image(h, args, c.top)
  }

  lemma TakesTurn(env: Env, s: State, steps: seq<Step>, t: State, c: CallSpec, args: seq<Arg>, h: Mem, a: nat, b: nat)
    requires UnderWay(env, s, steps, t, c, args, h, a, b)
    ensures Turn(env, t, c, args, h, a, b)
  {
    var image := Image(h, args, c.top);
    hide Reachable, Run, After, Image, CallOf, Clear, CallRegions, Ordered, SpecOk, Read;
    ReachableMore(env, s, steps);
    ImageInTurn(env, s, steps, c, image, a, b);
    OrderedStores(env, t);
  }

  /** When the VE gets to the call of `args`, sent in one message, the kernel is started with the arguments' registers
  and, if anything is copied in, with the image of the arguments as they were at submission on its stack, in the VE
  memory of its turn. */
  lemma KernelReceives(env: Env, s: State, steps: seq<Step>, t: State, c: CallSpec, args: seq<Arg>, h: Mem, a: nat)
    requires UnderWay(env, s, steps, t, c, args, h, a, a + 1) && FitsOne(env, c)
    requires t.served < |t.wire| && Begun(t) - |t.wire| + t.served == a && t.hist.pushed[a].cmd.op == SimpleOp(c)
    ensures a < |t.hist.pushed| && StartsCall(env, t, c, args, h, a)
  {
    hide Reachable, Run, After, Image, CallRegions, UnderWay, Clear, Write, FindsAll;
    TakesTurn(env, s, steps, t, c, args, h, a, a + 1);
    AllArrive(env, t, c, args, h, a, a + 1);
    NextServed(env, t, a);
  }

  /** The message to be served next starts the call. */
  ghost predicate StartsCall(env: Env, t: State, c: CallSpec, args: seq<Arg>, h: Mem, a: nat)
    requires t.served < |t.wire| && a < |t.hist.pushed|
  {
    && ArgsOk(args) && c.top < TWO64
    && var w := After(env, Prog(t.hist), a); var m := AtKernel(w.ve, c.top, Image(h, args, c.top), c.cin);
       Starts(t.wire[t.served].msg, t.ve, c, Regs(args, c.top), m) && (c.top + c.size < TWO64 ==> FindsAll(m, c, args, h))
  }

  /** The kernel started with the registers of the call in memory `m` finds every argument as it was in `h`. */
  ghost predicate FindsAll(m: Mem, c: CallSpec, args: seq<Arg>, h: Mem) {
    forall i :: 0 <= i < |args| ==> Finds(m, c.regs, c.top, c.cin, args, h, i)
  }

  lemma AllArrive(env: Env, t: State, c: CallSpec, args: seq<Arg>, h: Mem, a: nat, b: nat)
    requires Turn(env, t, c, args, h, a, b)
    ensures ArgsOk(args) && c.top < TWO64
    ensures c.top + c.size < TWO64 ==>
      FindsAll(AtKernel(After(env, Prog(t.hist), a).ve, c.top, Image(h, args, c.top), c.cin), c, args, h)
  {
    hide Reachable, Run, After, Image, Clear, CallRegions, Finds, Regs, Outs, CopiesIn, CopiesOut, AtKernel;
    var w := After(env, Prog(t.hist), a);
    StackSize(h, c, args);
    if c.top + c.size < TWO64 {
      forall i | 0 <= i < |args|
        ensures Finds(AtKernel(w.ve, c.top, Image(h, args, c.top), c.cin), c.regs, c.top, c.cin, args, h, i)
      {
        ArgumentArrives(h, args, c.top, w.ve, c.cin, i);
      }
    }
  }

  /** The same for the call part of a split call, of whose image the message carries only the head. */
  lemma SplitKernelReceives(env: Env, s: State, steps: seq<Step>, t: State, c: CallSpec, args: seq<Arg>, h: Mem, a: nat, b: nat,
                            nw: nat, ps: seq<Piece>, qs: seq<Piece>)
    requires UnderWay(env, s, steps, t, c, args, h, a, b) && b <= |t.hist.pushed|
    requires SplitBlock(env, c, Cmds(t.hist.pushed[a..b]), nw, ps, qs)
    requires t.served < |t.wire| && Begun(t) - |t.wire| + t.served == a + nw
    ensures StartsCall(env, t, c, args, h, a)
  {
    hide Reachable, Run, After, Image, CallRegions, UnderWay, SplitBlock, ExecSeq, Clear, Put, Starts, MsgOf, Read, FindsAll;
    TakesTurn(env, s, steps, t, c, args, h, a, b);
    AllArrive(env, t, c, args, h, a, b);
    NextServed(env, t, a + nw);
    var p, cmds := Prog(t.hist), Cmds(t.hist.pushed[a..b]);
    WorldAtCall(env, p, c, a, b, nw, ps, qs);
    ValueCommutes(env, ExecSeq(env, After(env, p, a), CmdOps(cmds[..nw])), HeadOp(c), p.stores, a, a + nw);
    HeadReceives(env, After(env, p, a), c, cmds, nw, ps, qs);
  }

  /** The head of the image in the message and the rest already on the VE make the whole image. */
  lemma HeadReceives(env: Env, w: World, c: CallSpec, cmds: seq<Command>, nw: nat, ps: seq<Piece>, qs: seq<Piece>)
    requires SpecOk(c, w) && SplitBlock(env, c, cmds, nw, ps, qs)
    ensures var u := ExecSeq(env, w, CmdOps(cmds[..nw]));
      Starts(MsgOf(env, HeadOp(c), u.host), u.ve, c, c.regs, AtKernel(w.ve, c.top, Read(w.host, c.stack, c.size), c.cin))
  {
    hide ExecSeq, Write, Read;
    var ws := CmdOps(cmds[..nw]);
    var rs := CmdOps(cmds[nw + 1..|cmds| - 1]);
    AfterWrites(env, w, c, ws, rs, cmds[|cmds| - 1].op, ps, qs);
    HeadAndRest(w, c, HeadLimit(env, |c.regs|));
  }

  // ---- what the caller gets ----

  ghost predicate InOuts(args: seq<Arg>, x: nat) {
    exists j :: 0 <= j < |args| && IsOut(args, j) && Region(args[j].buff, args[j].len).Has(x)
  }

  /** Every OUT and INOUT buffer holds the bytes at the argument's VE address, which is what its register holds. */
  ghost predicate OutsFilled(k: Mem, after: Mem, c: CallSpec, args: seq<Arg>)
    requires ArgsOk(args)
  {
    forall i :: 0 <= i < |args| && IsOut(args, i) ==>
      && Read(after, args[i].buff, args[i].len) == Read(k, c.top + Off(args, i), args[i].len)
      && (i < 8 && c.top + c.size < TWO64 ==>
            i < |c.regs| && Read(after, args[i].buff, args[i].len) == Read(k, c.regs[i], args[i].len))
  }

  /** No other byte outside the stack buffer differs, but for writes the application made since. */
  ghost predicate RestKept(before: Mem, after: Mem, c: CallSpec, args: seq<Arg>, stores: seq<Stored>, a: nat, n: nat) {
    && |after| == |before|
    && (forall x :: 0 <= x < |before| && !Region(c.stack, c.size).Has(x) && !InOuts(args, x) && NotAt(stores, a, n, x) ==>
          after[x] == before[x])
  }

  /** Host memory after a call, when its kernel left `k` on the VE. */
  ghost predicate Delivered(k: Mem, before: Mem, after: Mem, c: CallSpec, args: seq<Arg>, stores: seq<Stored>, a: nat, n: nat)
    requires ArgsOk(args)
  {
    OutsFilled(k, after, c, args) && RestKept(before, after, c, args, stores, a, n)
  }

  /** Host memory holds the effect of the call with later writes on top, but for the stack buffer. */
  ghost predicate Effected(env: Env, w: World, c: CallSpec, after: Mem, stores: seq<Stored>, a: nat, n: nat) {
    && |after| == |w.host|
    && (forall x :: 0 <= x < |after| && !Region(c.stack, c.size).Has(x) ==>
          after[x] == Put(CallEffect(env, w, c).host, stores, a, n)[x])
    && (c.cout ==> Clear(stores, a, n, OutRegions(c.outs)))
  }

  lemma OutArrives(env: Env, w: World, c: CallSpec, args: seq<Arg>, after: Mem, stores: seq<Stored>, a: nat, n: nat, i: nat)
    requires CallOf(c, args) && SpecOk(c, w) && Effected(env, w, c, after, stores, a, n) && i < |args| && IsOut(args, i)
    ensures Read(after, args[i].buff, args[i].len) == Read(KernelRun(env, w, c).0, c.top + Off(args, i), args[i].len)
  {
    hide KernelRun, CallEffect, Put, Read, Clear, OutRegions, SpecOk, Private, OutsApart;
    OutBufferDelivered(env, w, c, args, i);
    EffectVE(env, w, c);
    OutKept(c, args, CallEffect(env, w, c).host, after, stores, a, n, i);
  }

  lemma RestStays(env: Env, w: World, c: CallSpec, args: seq<Arg>, after: Mem, stores: seq<Stored>, a: nat, n: nat, x: nat)
    requires CallOf(c, args) && SpecOk(c, w) && Effected(env, w, c, after, stores, a, n)
    requires x < |w.host| && !Region(c.stack, c.size).Has(x) && !InOuts(args, x) && NotAt(stores, a, n, x)
    ensures after[x] == w.host[x]
  {
    hide KernelRun, CallEffect, Put, Clear, OutRegions, SpecOk, CallOf, NotAt;
    RestUnchanged(env, w, c, args, x);
    EffectVE(env, w, c);
    PutElsewhere(CallEffect(env, w, c).host, stores, a, n, x);
  }

  lemma PointerOf(c: CallSpec, args: seq<Arg>, i: nat)
    requires CallOf(c, args) && i < |args| && i < 8 && args[i].OnStack? && c.top + c.size < TWO64
    ensures i < |c.regs| && c.regs[i] == c.top + Off(args, i)
  {
    hide Image, Outs, CopiesIn, CopiesOut, Private, OutsApart;
    OffInside([], args, c.top, i);
    Wrapped(c.top + Off(args, i), TWO64);
  }

  lemma OutsArrive(env: Env, w: World, c: CallSpec, args: seq<Arg>, after: Mem, stores: seq<Stored>, a: nat, n: nat)
    requires CallOf(c, args) && SpecOk(c, w) && Effected(env, w, c, after, stores, a, n)
    ensures OutsFilled(KernelRun(env, w, c).0, after, c, args)
  {
    hide KernelRun, Read, SpecOk, Effected, CallOf;
    var k := KernelRun(env, w, c).0;
    forall i: nat | i < |args| && IsOut(args, i)
      ensures Read(after, args[i].buff, args[i].len) == Read(k, c.top + Off(args, i), args[i].len)
      ensures i < 8 && c.top + c.size < TWO64 ==>
        i < |c.regs| && Read(after, args[i].buff, args[i].len) == Read(k, c.regs[i], args[i].len)
    {
      OutArrives(env, w, c, args, after, stores, a, n, i);
      if i < 8 && c.top + c.size < TWO64 { PointerOf(c, args, i); }
    }
  }

  lemma RestStay(env: Env, w: World, c: CallSpec, args: seq<Arg>, after: Mem, stores: seq<Stored>, a: nat, n: nat)
    requires CallOf(c, args) && SpecOk(c, w) && Effected(env, w, c, after, stores, a, n)
    ensures RestKept(w.host, after, c, args, stores, a, n)
  {
    hide SpecOk, CallOf, InOuts, NotAt, Put, CallEffect, Clear, OutRegions;
    forall x: nat | x < |w.host| && !Region(c.stack, c.size).Has(x) && !InOuts(args, x) && NotAt(stores, a, n, x)
      ensures after[x] == w.host[x]
    {
      RestStays(env, w, c, args, after, stores, a, n, x);
    }
  }

  /** From the effect of the call to what the caller sees. */
  lemma EffectDelivers(env: Env, w: World, c: CallSpec, args: seq<Arg>, after: Mem, stores: seq<Stored>, a: nat, n: nat)
    requires CallOf(c, args) && SpecOk(c, w) && Effected(env, w, c, after, stores, a, n)
    ensures Delivered(KernelRun(env, w, c).0, w.host, after, c, args, stores, a, n)
  {
    hide SpecOk, OutsFilled, RestKept, KernelRun, Effected;
    OutsArrive(env, w, c, args, after, stores, a, n);
    RestStay(env, w, c, args, after, stores, a, n);
  }

  /** Later writes leave OUT buffers alone. */
  lemma OutKept(c: CallSpec, args: seq<Arg>, e: Mem, after: Mem, stores: seq<Stored>, a: nat, n: nat, i: nat)
    requires CallOf(c, args) && i < |args| && IsOut(args, i) && args[i].buff + args[i].len <= |e| == |after|
    requires forall x :: 0 <= x < |after| && !Region(c.stack, c.size).Has(x) ==> after[x] == Put(e, stores, a, n)[x]
    requires c.cout ==> Clear(stores, a, n, OutRegions(c.outs))
    ensures Read(after, args[i].buff, args[i].len) == Read(e, args[i].buff, args[i].len)
  {
    hide Put, Clear, Read, Outs, CopiesOut, CopiesIn, Regs;
    var k := OutListed(args, |args|, i);
    OutMeansCopied(args, i);
    var r := Region(args[i].buff, args[i].len);
    assert OutRegions(c.outs)[k] == r && Apart(r, Region(c.stack, c.size));
    forall x | r.addr <= x < r.addr + r.len ensures after[x] == e[x] {
      assert OutRegions(c.outs)[k].Has(x);
      ClearAt(stores, a, n, OutRegions(c.outs), x);
      PutElsewhere(e, stores, a, n, x);
    }
    SameRange(after, e, args[i].buff, args[i].len);
  }

  /** The kernel's run of a call in its turn, from the arguments as they were at submission. */
  function CallRun(env: Env, t: State, c: CallSpec, args: seq<Arg>, h: Mem, a: nat): (Mem, Word)
    requires ArgsOk(args) && c.top < TWO64 && a < |t.hist.pushed|
  {
    var ve := After(env, Prog(t.hist), a).ve;
    var m := if c.cin then Write(ve, c.top, Image(h, args, c.top)) else ve;
    var k := env.kernel(c.fn, c.regs, if c.cin || c.cout then c.top else 0, m);
    (if |k.0| == |ve| then k.0 else m, k.1)
  }

  lemma RunOfTurn(env: Env, t: State, c: CallSpec, args: seq<Arg>, h: Mem, a: nat, b: nat)
    requires Turn(env, t, c, args, h, a, b)
    ensures KernelRun(env, After(env, Prog(t.hist), a), c) == CallRun(env, t, c, args, h, a)
  {
    hide After, Image, Clear, CallRegions, Reachable, Write, Read, CallOf, SpecOk, Ordered;
  }

  /** The command in hand when a VH command may run is the one to begin next. */
  lemma JoinInHand(env: Env, s: State, b: nat)
    requires Inv(env, s) && CanRunVH(s) && 0 < b <= |s.hist.pushed| && s.phase.cmd == s.hist.pushed[b - 1].cmd
    ensures Begun(s) + 1 == b
  {
    InHand(env, s);
    hide Backward, Queue, Flight, Wire, Slotted, Books, Issued, Sessions, Fifo, Barrier;
  }

  /** Writes keep away from what the join in hand writes back. */
  lemma JoinClear(env: Env, t: State, c: CallSpec, a: nat, b: nat)
    requires Reachable(env, t) && t.hist.clean && CanRunVH(t) && a < b <= |t.hist.pushed|
    requires t.phase.cmd == t.hist.pushed[b - 1].cmd && t.phase.cmd.op.Join?
    requires t.phase.cmd.op.copyout == c.cout && t.phase.cmd.op.outs == c.outs
    requires Clear(t.hist.stores, a, b - 1, CallRegions(c))
    ensures c.cout ==> Clear(t.hist.stores, a, |t.hist.pushed|, OutRegions(c.outs))
  {
    hide Reachable, Run, Inv, ChainInv, CleanInv, Sim, Values, Untouched, Clear, OutRegions;
    ReachableSim(env, t);
    InHand(env, t);
    PushedOnce(env, t, b - 1);
    UntouchedClear(env, t.hist.stores, t.hist.book, t.phase.cmd.id, |t.hist.pushed|);
    ClearTail(t.hist.stores, a, b - 1, Region(c.stack, c.size), OutRegions(c.outs));
    ClearJoin(t.hist.stores, a, b - 1, |t.hist.pushed|, OutRegions(c.outs));
  }

  lemma ClearJoin(es: seq<Stored>, lo: int, mid: int, hi: int, rs: seq<Region>)
    ensures Clear(es, lo, mid, rs) && Clear(es, mid, hi, rs) ==> Clear(es, lo, hi, rs)
  {
  }

  /** What the join in hand is about to return and to leave behind, for a call of `args` as they were in `h`. */
  ghost predicate JoinDelivers(env: Env, t: State, c: CallSpec, args: seq<Arg>, h: Mem, a: nat)
    requires CanRunVH(t)
  {
    && ArgsOk(args) && c.top < TWO64 && c.regs == Regs(args, c.top) && a < |t.hist.pushed|
    && var k := CallRun(env, t, c, args, h, a); var u := DoRunVH(env, t);
       && u.phase.Settled? && u.phase.out.res == Result(Ok, k.1) && u.ve == k.0
       && Delivered(k.0, After(env, Prog(t.hist), a).host, u.host, c, args, t.hist.stores, a, |t.hist.pushed|)
  }

  /** A large call, followed from the state in which its arguments were taken.  However long the run and whatever
  else is submitted meanwhile: when its join runs, the kernel has run with the arguments' registers on the arguments'
  image, the join returns OK with its value, VE memory is as it left it, and every OUT and INOUT buffer holds what it
  left at the argument's address. */
  lemma SplitCallDelivers(env: Env, s: State, steps: seq<Step>, t: State, c: CallSpec, args: seq<Arg>, h: Mem,
                          send: Settings, recv: Settings, a: nat, b: nat)
    requires UnderWay(env, s, steps, t, c, args, h, a, b) && b <= |t.hist.pushed|
    requires WholeCall(env, c, send, recv, t.hist.pushed[a..b])
    requires CanRunVH(t) && t.phase.cmd == t.hist.pushed[b - 1].cmd
    ensures JoinDelivers(env, t, c, args, h, a)
  {
    RegsOf(env, s, steps, t, c, args, h, a, b);
    hide UnderWay, WholeCall, CallRun, DoRunVH, Delivered, CanRunVH, After;
    TakesTurn(env, s, steps, t, c, args, h, a, b);
    SplitTurn(env, t, c, args, h, send, recv, a, b);
  }

  lemma RegsOf(env: Env, s: State, steps: seq<Step>, t: State, c: CallSpec, args: seq<Arg>, h: Mem, a: nat, b: nat)
    requires UnderWay(env, s, steps, t, c, args, h, a, b)
    ensures ArgsOk(args) && c.top < TWO64 && c.regs == Regs(args, c.top)
  {
    hide Reachable, Run, Arranged, Image;
  }

  lemma SameIsEffected(env: Env, w: World, c: CallSpec, ve: Mem, host: Mem, stores: seq<Stored>, a: nat, n: nat)
    requires var e := CallEffect(env, w, c); SameOutside(World(ve, host), e.(host := Put(e.host, stores, a, n)), c.stack, c.size)
    requires c.cout ==> Clear(stores, a, n, OutRegions(c.outs))
    ensures ve == KernelRun(env, w, c).0 && Effected(env, w, c, host, stores, a, n)
  {
    hide Put, Clear, OutRegions, KernelRun;
  }

  lemma RunSettles(env: Env, t: State)
    requires CanRunVH(t)
    ensures DoRunVH(env, t).phase.Settled?
  {
  }

  /** When the join of a split block is about to run, its result and effect are those of the call's turn. */
  lemma JoinRuns(env: Env, t: State, u: State, w: World, c: CallSpec, a: nat, b: nat, nw: nat, ps: seq<Piece>, qs: seq<Piece>)
    requires Reachable(env, t) && t.hist.clean && !t.hist.raced && CanRunVH(t)
    requires a < b <= |t.hist.pushed| && t.phase.cmd == t.hist.pushed[b - 1].cmd
    requires Clear(t.hist.stores, a, b - 1, CallRegions(c)) && SplitBlock(env, c, Cmds(t.hist.pushed[a..b]), nw, ps, qs)
    requires u == DoRunVH(env, t) && w == After(env, Prog(t.hist), a) && SpecOk(c, w) && Private(c)
    ensures var k := KernelRun(env, w, c); u.phase.Settled? && u.phase.out.res == Result(Ok, k.1) && u.ve == k.0
    ensures Effected(env, w, c, u.host, t.hist.stores, a, |t.hist.pushed|)
  {
    hide *;
    RunSettles(env, t);
    ReachableInv(env, t);
    JoinInHand(env, t, b);
    JoinOfBlock(env, c, t.hist.pushed, a, b, nw, ps, qs);
    LargeCallEndToEnd(env, t, c, a, nw, ps, qs);
    JoinClear(env, t, c, a, b);
    SameIsEffected(env, w, c, u.ve, u.host, t.hist.stores, a, |t.hist.pushed|);
  }

  lemma SplitTurn(env: Env, t: State, c: CallSpec, args: seq<Arg>, h: Mem, send: Settings, recv: Settings, a: nat, b: nat)
    requires Turn(env, t, c, args, h, a, b) && WholeCall(env, c, send, recv, t.hist.pushed[a..b])
    requires CanRunVH(t) && t.phase.cmd == t.hist.pushed[b - 1].cmd
    ensures var k := CallRun(env, t, c, args, h, a); var u := DoRunVH(env, t);
      && u.phase.Settled? && u.phase.out.res == Result(Ok, k.1) && u.ve == k.0
      && Delivered(k.0, After(env, Prog(t.hist), a).host, u.host, c, args, t.hist.stores, a, |t.hist.pushed|)
  {
    hide Reachable, Run, After, DoRunVH, KernelRun, CallRun, CanRunVH, Effected, Delivered, Image, SpecOk;
    hide SplitBlock, Pieces, FragSize, LinkedParts, Clear, CallRegions;
    RunOfTurn(env, t, c, args, h, a, b);
    var rest := c.size - HeadLimit(env, |c.regs|);
    var ps := Pieces(0, rest, FragSize(env, send, true, rest));
    var qs := Pieces(0, rest, FragSize(env, recv, false, rest));
    JoinRuns(env, t, DoRunVH(env, t), After(env, Prog(t.hist), a), c, a, b, if c.cin then |ps| else 0, ps, qs);
    EffectDelivers(env, After(env, Prog(t.hist), a), c, args, DoRunVH(env, t).host, t.hist.stores, a, |t.hist.pushed|);
  }

  lemma EffectVE(env: Env, w: World, c: CallSpec)
    ensures CallEffect(env, w, c).ve == KernelRun(env, w, c).0 && |CallEffect(env, w, c).host| == |w.host|
  {
  }

  lemma JoinOfBlock(env: Env, c: CallSpec, pushed: seq<Push>, a: nat, b: nat, nw: nat, ps: seq<Piece>, qs: seq<Piece>)
    requires a < b <= |pushed| && SplitBlock(env, c, Cmds(pushed[a..b]), nw, ps, qs)
    ensures var j := pushed[b - 1].cmd.op; j.Join? && j.copyout == c.cout && j.outs == c.outs
  {
    assert pushed[b - 1].cmd == Cmds(pushed[a..b])[b - a - 1];
  }

  /** A command in hand with the id of a pushed one is that command. */
  lemma SameCommand(env: Env, t: State, k: nat)
    requires Reachable(env, t) && k < |t.hist.pushed| && Holding(t.phase) && t.phase.cmd.id == t.hist.pushed[k].cmd.id
    ensures t.phase.cmd == t.hist.pushed[k].cmd
  {
    hide Reachable, Run, Inv;
    ReachableInv(env, t);
    InHand(env, t);
    PushedOnce(env, t, k);
  }

  /** Both ends together: callAsync was called in state `s` with OUT buffers that do not overlap each other or the stack
  buffer, and returned `id` for a large call all of whose parts were accepted.  Whatever happens after that, when
  command `id` is about to run in a clean run without races, the kernel has run with the arguments as they were in `s`
  and the caller is about to get what it left. */
  lemma LargeCallAsync(env: Env, s: State, mid: State, now: State, steps: seq<Step>, more: seq<Step>, t: State, c: CallSpec,
                       args: seq<Arg>, sp: Word, send: Settings, recv: Settings, tid: Tid, id: nat, block: seq<Push>, nw: nat, nc: nat)
    requires Reachable(env, s) && Called(env, s, mid, now, steps, c, args, sp, send, recv, tid, id, block, nw, nc)
    requires OutsApart(args) && Private(c) && !FitsOne(env, c) && block != []
    requires block[|block| - 1].cmd.op.Join? && AllAccepted(c, block[|block| - 1].cmd.op)
    requires Run(env, now, more) == Some(t) && t.hist.clean && !t.hist.raced && CanRunVH(t) && t.phase.cmd.id == id
    ensures JoinDelivers(env, t, c, args, s.host, |s.hist.pushed|)
  {
    hide *;
    CalledIsSubmitted(env, s, mid, now, steps, c, args, sp, send, recv, tid, id, block, nw, nc);
    AcceptedIsWhole(env, c, send, recv, tid, block, nw, nc, |s.ve|, |s.host|);
    SubmittedIsUnderWay(env, s, mid, now, steps, more, t, c, args, block);
    UnderWayReachable(env, mid, steps + more, t, c, args, s.host, |s.hist.pushed|, |s.hist.pushed| + |block|);
    var a := |s.hist.pushed|;
    assert block[|block| - 1] == t.hist.pushed[a..a + |block|][|block| - 1];
    RunsInHand(t);
    SameCommand(env, t, a + |block| - 1);
    SplitCallDelivers(env, mid, steps + more, t, c, args, s.host, send, recv, a, a + |block|);
  }

  lemma RunsInHand(t: State)
    requires CanRunVH(t)
    ensures Holding(t.phase)
  {
  }

  lemma UnderWayReachable(env: Env, s: State, steps: seq<Step>, t: State, c: CallSpec, args: seq<Arg>, h: Mem, a: nat, b: nat)
    requires UnderWay(env, s, steps, t, c, args, h, a, b)
    ensures Reachable(env, t)
  {
    hide Reachable, Run, Arranged, CallOf;
    ReachableMore(env, s, steps);
  }

  /** What reception of the oldest reply is about to bring, for a call of `args` as they were in `h`. */
  ghost predicate ReceiptDelivers(env: Env, t: State, c: CallSpec, args: seq<Arg>, h: Mem, a: nat)
    requires CanReceive(t)
  {
    && ArgsOk(args) && c.top < TWO64 && c.regs == Regs(args, c.top) && a < |t.hist.pushed|
    && var k := CallRun(env, t, c, args, h, a); var u := DoReceive(t);
       && u.phase.Settled? && u.phase.cmd == t.hist.pushed[a].cmd && u.phase.out.res == Result(Ok, k.1)
       && Delivered(k.0, After(env, Prog(t.hist), a).host, u.host, c, args, t.hist.stores, a, |t.hist.pushed|)
  }

  /** A call that fits into one message, followed the same way to the reception of its reply. */
  lemma SimpleCallDelivers(env: Env, s: State, steps: seq<Step>, t: State, c: CallSpec, args: seq<Arg>, h: Mem, a: nat)
    requires UnderWay(env, s, steps, t, c, args, h, a, a + 1) && FitsOne(env, c)
    requires CanReceive(t) && a < |t.hist.pushed| && t.hist.pushed[a].cmd.op == SimpleOp(c) && t.wire[0].id == t.hist.pushed[a].cmd.id
    ensures ReceiptDelivers(env, t, c, args, h, a)
  {
    RegsOf(env, s, steps, t, c, args, h, a, a + 1);
    hide UnderWay, CallRun, DoReceive, Delivered, After;
    TakesTurn(env, s, steps, t, c, args, h, a, a + 1);
    SimpleTurn(env, t, c, args, h, a);
  }

  /** Both ends together, for a call that fits into one message. */
  lemma SmallCallAsync(env: Env, s: State, mid: State, now: State, steps: seq<Step>, more: seq<Step>, t: State, c: CallSpec,
                       args: seq<Arg>, sp: Word, send: Settings, recv: Settings, tid: Tid, id: nat, block: seq<Push>, nw: nat, nc: nat)
    requires Reachable(env, s) && Called(env, s, mid, now, steps, c, args, sp, send, recv, tid, id, block, nw, nc)
    requires OutsApart(args) && Private(c) && FitsOne(env, c)
    requires Run(env, now, more) == Some(t) && t.hist.clean && !t.hist.raced && CanReceive(t) && t.wire[0].id == id
    ensures ReceiptDelivers(env, t, c, args, s.host, |s.hist.pushed|)
  {
    hide *;
    CalledIsSubmitted(env, s, mid, now, steps, c, args, sp, send, recv, tid, id, block, nw, nc);
    SubmittedIsUnderWay(env, s, mid, now, steps, more, t, c, args, block);
    var a := |s.hist.pushed|;
    assert block[0] == t.hist.pushed[a..a + 1][0];
    SimpleCallDelivers(env, mid, steps + more, t, c, args, s.host, a);
  }

  lemma SimpleTurn(env: Env, t: State, c: CallSpec, args: seq<Arg>, h: Mem, a: nat)
    requires Turn(env, t, c, args, h, a, a + 1) && FitsOne(env, c)
    requires CanReceive(t) && t.hist.pushed[a].cmd.op == SimpleOp(c) && t.wire[0].id == t.hist.pushed[a].cmd.id
    ensures var k := CallRun(env, t, c, args, h, a); var u := DoReceive(t);
      && u.phase.Settled? && u.phase.cmd == t.hist.pushed[a].cmd && u.phase.out.res == Result(Ok, k.1)
      && Delivered(k.0, After(env, Prog(t.hist), a).host, u.host, c, args, t.hist.stores, a, |t.hist.pushed|)
  {
    RunOfTurn(env, t, c, args, h, a, a + 1);
    hide Reachable, Run, After, KernelRun, CallRun, CallEffect, Delivered, Clear, Put, Image, OutRegions, DoReceive;
    ReplyOfCall(env, t, SimpleOp(c), a);
    var p, n, w := Prog(t.hist), |t.hist.pushed|, After(env, Prog(t.hist), a);
    SingleMessage(env, w, c);
    AfterSizes(env, p, a);
    EffectVE(env, w, c);
    PutJoin(CallEffect(env, w, c).host, t.hist.stores, n, a, a + 1, n);
    OutsOfCall(env, c);
    EffectDelivers(env, w, c, args, DoReceive(t).host, t.hist.stores, a, n);
  }

  lemma OutsOfCall(env: Env, c: CallSpec)
    ensures c.cout ==> Writes(env, SimpleOp(c)) == OutRegions(c.outs)
  {
  }

  /** Reception of the reply to a call in a clean run: value and host memory are those of its turn. */
  lemma ReplyOfCall(env: Env, t: State, op: Op, a: nat)
    requires Reachable(env, t) && t.hist.clean && !t.hist.raced && CanReceive(t)
    requires a < |t.hist.pushed| && t.hist.pushed[a].cmd.op == op && op.Call? && t.wire[0].id == t.hist.pushed[a].cmd.id
    ensures var w := After(env, Prog(t.hist), a); var u := DoReceive(t); var n := |t.hist.pushed|;
      && u.phase.Settled? && u.phase.cmd == t.hist.pushed[a].cmd && u.phase.out.res == Result(Ok, CallValue(env, w, op))
      && u.host == Put(Put(SeqStep(env, w, op).host, t.hist.stores, a, a + 1), t.hist.stores, a + 1, n)
      && Clear(t.hist.stores, a, n, Writes(env, op))
  {
    hide Reachable, Run, Inv, ChainInv, CleanInv, Sim, Values, OnReply, HostEffect, GoodReply, CallValue;
    hide After, Untouched, Ordered, Clear, Put, Writes, SeqStep;
    ReachableSim(env, t);
    CleanReply(env, t);
    OldestReply(env, t);
    PushedOnce(env, t, a);
    UntouchedClear(env, t.hist.stores, t.hist.book, t.wire[0].id, |t.hist.pushed|);
    var c := t.inflight[t.wire[0].req];
    SimReceive(env, Prog(t.hist), Begun(t), t.wire, t.served, t.hist.book, t.ve, t.host);
    CallReply(env, t.ledger, c, t.wire[0].reply.value);
    CallAnswer(t.ledger, c, t.wire[0].reply.value, env);
    BaseIs(env, Prog(t.hist), Begun(t), t.wire, t.served, t.hist.book, t.ve, t.host);
    SimHost(env, Prog(t.hist), Begun(t), t.wire[1..], t.served - 1, t.hist.book, t.ve, HostEffect(op, t.host, t.wire[0].reply.value));
    AfterStep(env, Prog(t.hist), a);
  }

  lemma AfterStep(env: Env, p: Program, k: nat)
    requires k < |p.pushed|
    ensures var w := SeqStep(env, After(env, p, k), p.pushed[k].cmd.op); After(env, p, k + 1).host == Put(w.host, p.stores, k, k + 1)
  {
  }

  lemma BaseIs(env: Env, p: Program, begun: int, wire: seq<Slot>, served: nat, book: Book, ve: Mem, host: Mem)
    requires Sim(env, p, begun, wire, served, book, ve, host) && |wire| > 0
    ensures wire[0].id in book && book[wire[0].id].pos == begun - |wire|
  {
    hide After, HostNow, MsgOf, Handle;
    assert SlotSim(env, p, begun - |wire| + 0, wire[0], 0 < served, book);
  }

  lemma CallAnswer(l: Ledger, c: Command, reply: Reply, env: Env)
    requires c.op.Call? && GoodReply(env, c.op, reply)
    ensures OnReply(l, c, reply).out.res.status == Ok
  {
  }

  /** The block of a split call has no hazards of its own. */
  lemma SplitBlockHazardFree(env: Env, c: CallSpec, block: seq<Push>, nw: nat, ps: seq<Piece>, qs: seq<Piece>)
    requires SplitBlock(env, c, Cmds(block), nw, ps, qs)
    ensures HazardFree(env, block)
  {
    var n := |block| - 1;
    forall i, j | 0 <= i < j < |block| && AllVE(block, i, j + 1)
      ensures AllApart(Writes(env, block[i].cmd.op), Reads(env, block[j].cmd.op))
    {
      if i < nw {
        assert CmdOps(Cmds(block)[..nw])[i] == block[i].cmd.op;
      } else if j < n {
        assert CmdOps(Cmds(block)[nw + 1..n])[j - nw - 1] == block[j].cmd.op;
      }
    }
  }
}
