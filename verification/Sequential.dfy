/** The asynchronous engine refines sequential execution: as long as nothing fails, its memories are those
of executing the pushed commands one after the other. */
module Sequential {
  import opened Memory
  import opened Protocol
  import opened Engine
  import opened EngineInv
  import opened EngineChains

  function Cmds(ps: seq<Push>): (r: seq<Command>)
    ensures |r| == |ps| && forall i :: 0 <= i < |ps| ==> r[i] == ps[i].cmd
  {
    seq(|ps|, i requires 0 <= i < |ps| => ps[i].cmd)
  }

  function CmdOps(cmds: seq<Command>): (r: seq<Op>)
    ensures |r| == |cmds| && forall i :: 0 <= i < |cmds| ==> r[i] == cmds[i].op
  {
    seq(|cmds|, i requires 0 <= i < |cmds| => cmds[i].op)
  }

  // ---- writes of the application ----

  function Area(e: Stored): Region { Region(e.addr, |e.bytes|) }

  /** The writes made when more than `lo` and at most `hi` commands had been pushed, in order. */
  function Put(host: Mem, es: seq<Stored>, lo: int, hi: int): (h: Mem)
    ensures |h| == |host|
  {
    if es == [] then host
    else
      var e := es[|es| - 1];
      var h := Put(host, es[..|es| - 1], lo, hi);
      if lo < e.pos <= hi then Write(h, e.addr, e.bytes) else h
  }

  /** Writes are recorded in push order, none after `n` commands. */
  ghost predicate Ordered(es: seq<Stored>, n: nat) {
    && (forall i :: 0 <= i < |es| ==> es[i].pos <= n)
    && (forall i, j :: 0 <= i < j < |es| ==> es[i].pos <= es[j].pos)
  }

  /** None of the writes in the range touches the regions. */
  ghost predicate Clear(es: seq<Stored>, lo: int, hi: int, rs: seq<Region>) {
    forall i :: 0 <= i < |es| && lo < es[i].pos <= hi ==> AllApart([Area(es[i])], rs)
  }

  ghost predicate NotAt(es: seq<Stored>, lo: int, hi: int, x: int) {
    forall i :: 0 <= i < |es| && lo < es[i].pos <= hi ==> !Area(es[i]).Has(x)
  }

  lemma {:induction false} PutAgree(h1: Mem, h2: Mem, es: seq<Stored>, lo: int, hi: int, x: nat)
    requires |h1| == |h2| && x < |h1| && h1[x] == h2[x]
    ensures Put(h1, es, lo, hi)[x] == Put(h2, es, lo, hi)[x]
  {
    if es != [] { PutAgree(h1, h2, es[..|es| - 1], lo, hi, x); }
  }

  lemma {:induction false} PutElsewhere(h: Mem, es: seq<Stored>, lo: int, hi: int, x: nat)
    requires x < |h| && NotAt(es, lo, hi, x)
    ensures Put(h, es, lo, hi)[x] == h[x]
  {
    if es != [] {
      var front := es[..|es| - 1];
      assert NotAt(front, lo, hi, x) by { forall i | 0 <= i < |front| ensures front[i] == es[i] { } }
      PutElsewhere(h, front, lo, hi, x);
      assert es[|es| - 1].pos <= hi && lo < es[|es| - 1].pos ==> !Area(es[|es| - 1]).Has(x);
    }
  }

  lemma ClearAt(es: seq<Stored>, lo: int, hi: int, rs: seq<Region>, x: nat)
    requires Clear(es, lo, hi, rs) && !Outside(x, rs)
    ensures NotAt(es, lo, hi, x)
  {
    var k :| 0 <= k < |rs| && rs[k].Has(x);
    forall i | 0 <= i < |es| && lo < es[i].pos <= hi ensures !Area(es[i]).Has(x) {
      assert Apart([Area(es[i])][0], rs[k]);
    }
  }

  lemma {:induction false} PutNone(h: Mem, es: seq<Stored>, lo: int, hi: int)
    requires forall i :: 0 <= i < |es| ==> !(lo < es[i].pos <= hi)
    ensures Put(h, es, lo, hi) == h
  {
    if es != [] { PutNone(h, es[..|es| - 1], lo, hi); }
  }

  /** Writes of a range and then of the next one. */
  lemma {:induction false} PutJoin(h: Mem, es: seq<Stored>, n: nat, lo: int, mid: int, hi: int)
    requires Ordered(es, n) && lo <= mid <= hi
    ensures Put(Put(h, es, lo, mid), es, mid, hi) == Put(h, es, lo, hi)
  {
    if es != [] {
      var front, e := es[..|es| - 1], es[|es| - 1];
      assert Ordered(front, n);
      PutJoin(h, front, n, lo, mid, hi);
      if lo < e.pos <= mid {
        PutNone(Put(h, es, lo, mid), front, mid, hi);
        PutNone(Put(h, front, lo, mid), front, mid, hi);
      }
    }
  }

  /** An upper end beyond all writes makes no difference. */
  lemma {:induction false} PutAll(h: Mem, es: seq<Stored>, lo: int, n: nat, m: nat)
    requires Ordered(es, n) && n <= m
    ensures Put(h, es, lo, m) == Put(h, es, lo, n)
  {
    if es != [] {
      assert Ordered(es[..|es| - 1], n);
      PutAll(h, es[..|es| - 1], lo, n, m);
    }
  }

  // ---- programs ----

  /** What the application did, in order: pushes, and writes between them. */
  datatype Program = Program(init: World, pushed: seq<Push>, stores: seq<Stored>)

  function Prog(h: History): Program { Program(h.init, h.pushed, h.stores) }

  /** The world in which command `k` gets its turn when everything is done in program order: the commands before
  it, executed one after the other, and the writes made before it was pushed. */
  function After(env: Env, p: Program, k: nat): World
    requires k <= |p.pushed|
  {
    if k == 0 then p.init.(host := Put(p.init.host, p.stores, -1, 0))
    else
      var w := SeqStep(env, After(env, p, k - 1), p.pushed[k - 1].cmd.op);
      w.(host := Put(w.host, p.stores, k - 1, k))
  }

  /** Without writes in between this is plain sequential execution. */
  lemma {:induction false} AfterIsExec(env: Env, p: Program, k: nat)
    requires k <= |p.pushed| && p.stores == []
    ensures After(env, p, k) == ExecSeq(env, p.init, CmdOps(Cmds(p.pushed[..k])))
  {
    hide SeqStep;
    if k > 0 {
      AfterIsExec(env, p, k - 1);
      var ops := CmdOps(Cmds(p.pushed[..k]));
      assert ops[..k - 1] == CmdOps(Cmds(p.pushed[..k - 1]));
    }
  }

  lemma {:induction false} AfterPush(env: Env, p: Program, q: Push, k: nat)
    requires k <= |p.pushed|
    ensures After(env, p.(pushed := p.pushed + [q]), k) == After(env, p, k)
  {
    hide SeqStep, Put;
    if k > 0 { AfterPush(env, p, q, k - 1); }
  }

  /** A write made now comes after the commands pushed so far. */
  lemma {:induction false} AfterStore(env: Env, p: Program, e: Stored, k: nat)
    requires k <= |p.pushed| == e.pos
    ensures var w := After(env, p.(stores := p.stores + [e]), k);
      w == if k < |p.pushed| then After(env, p, k)
           else After(env, p, k).(host := Write(After(env, p, k).host, e.addr, e.bytes))
  {
    hide SeqStep;
    assert (p.stores + [e])[..|p.stores|] == p.stores;
    if k > 0 { AfterStore(env, p, e, k - 1); }
  }

  lemma {:induction false} AfterSizes(env: Env, p: Program, k: nat)
    requires k <= |p.pushed|
    ensures |After(env, p, k).ve| == |p.init.ve| && |After(env, p, k).host| == |p.init.host|
  {
    if k > 0 { AfterSizes(env, p, k - 1); }
  }

  /** A command leaves alone what it does not write. */
  lemma StepLeaves(env: Env, w: World, op: Op, x: nat)
    requires x < |w.host| && Outside(x, Writes(env, op))
    ensures |SeqStep(env, w, op).host| == |w.host| && SeqStep(env, w, op).host[x] == w.host[x]
  {
    hide Writes, Outside, HostEffect, VhEffect, Handle, MsgOf, GoodReply;
    if op.IsVH() {
      VhFrame(env, op, w.host, x);
    } else {
      HandleReplies(env, op, w.ve, w.host);
      EffectFrame(env, op, w.host, Handle(env, w.ve, MsgOf(env, op, w.host)).1, x);
    }
  }

  /** Bytes that the commands from `i` to `m` do not write change only by the writes of the application. */
  lemma {:induction false} AfterAt(env: Env, p: Program, i: nat, m: nat, x: nat)
    requires i <= m <= |p.pushed| && Ordered(p.stores, |p.pushed|) && x < |p.init.host|
    requires forall k :: i <= k < m ==> Outside(x, Writes(env, p.pushed[k].cmd.op))
    ensures |After(env, p, i).host| == |After(env, p, m).host| == |p.init.host|
    ensures After(env, p, m).host[x] == Put(After(env, p, i).host, p.stores, i, m)[x]
    decreases m - i
  {
    hide SeqStep, Writes, Outside, Put;
    AfterSizes(env, p, i);
    AfterSizes(env, p, m);
    if i == m {
      PutNone(After(env, p, i).host, p.stores, i, i);
    } else {
      var w, h := After(env, p, m - 1), After(env, p, i).host;
      AfterAt(env, p, i, m - 1, x);
      StepLeaves(env, w, p.pushed[m - 1].cmd.op, x);
      PutAgree(SeqStep(env, w, p.pushed[m - 1].cmd.op).host, Put(h, p.stores, i, m - 1), p.stores, m - 1, m, x);
      PutJoin(h, p.stores, |p.pushed|, i, m - 1, m);
    }
  }

  lemma ReadIsNotWritten(env: Env, a: Op, b: Op, x: nat)
    requires AllApart(Writes(env, a), Reads(env, b)) && !Outside(x, Reads(env, b))
    ensures Outside(x, Writes(env, a))
  {
    var k :| 0 <= k < |Reads(env, b)| && Reads(env, b)[k].Has(x);
    forall i | 0 <= i < |Writes(env, a)| ensures !Writes(env, a)[i].Has(x) {
      assert Apart(Writes(env, a)[i], Reads(env, b)[k]);
    }
  }

  /** Host memory when the commands before `i` are answered and every write so far is made. */
  function HostNow(env: Env, p: Program, i: nat): Mem
    requires i <= |p.pushed|
  {
    Put(After(env, p, i).host, p.stores, i, |p.pushed|)
  }

  /** The commands from `i` on do not write what command `j` reads. */
  ghost predicate Ahead(env: Env, pushed: seq<Push>, i: nat, j: nat)
    requires j < |pushed|
  {
    forall k :: i <= k < j ==> AllApart(Writes(env, pushed[k].cmd.op), Reads(env, pushed[j].cmd.op))
  }

  /** A message sent now is the message the command would send in its turn. */
  lemma MsgInTurn(env: Env, p: Program, i: nat, j: nat)
    requires i <= j < |p.pushed| && Ahead(env, p.pushed, i, j) && !p.pushed[j].cmd.op.IsVH()
    requires Ordered(p.stores, |p.pushed|) && Clear(p.stores, j, |p.pushed|, Reads(env, p.pushed[j].cmd.op))
    ensures MsgOf(env, p.pushed[j].cmd.op, HostNow(env, p, i)) == MsgOf(env, p.pushed[j].cmd.op, After(env, p, j).host)
  {
    AfterSizes(env, p, i);
    AfterSizes(env, p, j);
    var op := p.pushed[j].cmd.op;
    forall x | 0 <= x < |p.init.host| && !Outside(x, Reads(env, op))
      ensures HostNow(env, p, i)[x] == After(env, p, j).host[x]
    {
      ReadNow(env, p, i, j, x);
    }
    hide After, Ahead, Clear;
    MsgFrame(env, op, HostNow(env, p, i), After(env, p, j).host);
  }

  lemma ReadNow(env: Env, p: Program, i: nat, j: nat, x: nat)
    requires i <= j < |p.pushed| && Ahead(env, p.pushed, i, j)
    requires Ordered(p.stores, |p.pushed|) && Clear(p.stores, j, |p.pushed|, Reads(env, p.pushed[j].cmd.op))
    requires x < |p.init.host| && !Outside(x, Reads(env, p.pushed[j].cmd.op))
    ensures |HostNow(env, p, i)| == |After(env, p, j).host| == |p.init.host|
    ensures HostNow(env, p, i)[x] == After(env, p, j).host[x]
  {
    hide After, Put, Outside, Reads, Writes, AllApart;
    var op, n, h := p.pushed[j].cmd.op, |p.pushed|, After(env, p, i).host;
    forall k | i <= k < j ensures Outside(x, Writes(env, p.pushed[k].cmd.op)) {
      ReadIsNotWritten(env, p.pushed[k].cmd.op, op, x);
    }
    AfterAt(env, p, i, j, x);
    ClearAt(p.stores, j, n, Reads(env, op), x);
    PutElsewhere(Put(h, p.stores, i, j), p.stores, j, n, x);
    PutJoin(h, p.stores, n, i, j, n);
  }

  // ---- writes commute with commands that do not use the memory ----

  lemma ReplyCommutes(env: Env, op: Op, h: Mem, reply: Reply, es: seq<Stored>, lo: int, hi: int)
    requires !op.IsVH() && GoodReply(env, op, reply) && Clear(es, lo, hi, Writes(env, op))
    ensures HostEffect(op, Put(h, es, lo, hi), reply) == Put(HostEffect(op, h, reply), es, lo, hi)
  {
    hide HostEffect, Writes, Outside, Clear, Put;
    var h' := Put(h, es, lo, hi);
    forall x | 0 <= x < |h| ensures HostEffect(op, h', reply)[x] == Put(HostEffect(op, h, reply), es, lo, hi)[x] {
      if Outside(x, Writes(env, op)) {
        EffectFrame(env, op, h', reply, x);
        EffectFrame(env, op, h, reply, x);
        PutAgree(h, HostEffect(op, h, reply), es, lo, hi, x);
      } else {
        ClearAt(es, lo, hi, Writes(env, op), x);
        PutElsewhere(h, es, lo, hi, x);
        PutElsewhere(HostEffect(op, h, reply), es, lo, hi, x);
        EffectAgree(op, h, h', reply, x);
      }
    }
  }

  lemma VhCommutes(env: Env, op: Op, h: Mem, es: seq<Stored>, lo: int, hi: int)
    requires op.IsVH() && Clear(es, lo, hi, Writes(env, op)) && Clear(es, lo, hi, Reads(env, op))
    ensures VhEffect(env, op, Put(h, es, lo, hi), true) == Put(VhEffect(env, op, h, true), es, lo, hi)
  {
    hide VhEffect, Writes, Reads, Outside, Clear, Put;
    var h' := Put(h, es, lo, hi);
    forall y | 0 <= y < |h| && !Outside(y, Reads(env, op)) ensures h'[y] == h[y] {
      ClearAt(es, lo, hi, Reads(env, op), y);
      PutElsewhere(h, es, lo, hi, y);
    }
    forall x | 0 <= x < |h| ensures VhEffect(env, op, h', true)[x] == Put(VhEffect(env, op, h, true), es, lo, hi)[x] {
      if Outside(x, Writes(env, op)) {
        VhFrame(env, op, h', x);
        VhFrame(env, op, h, x);
        PutAgree(h, VhEffect(env, op, h, true), es, lo, hi, x);
      } else {
        ClearAt(es, lo, hi, Writes(env, op), x);
        PutElsewhere(h, es, lo, hi, x);
        PutElsewhere(VhEffect(env, op, h, true), es, lo, hi, x);
        VhAgree(env, op, h, h', x);
      }
    }
  }

  lemma StepCommutes(env: Env, w: World, op: Op, es: seq<Stored>, lo: int, hi: int)
    requires Clear(es, lo, hi, Writes(env, op)) && Clear(es, lo, hi, Reads(env, op))
    ensures var u := SeqStep(env, w, op);
      SeqStep(env, w.(host := Put(w.host, es, lo, hi)), op) == u.(host := Put(u.host, es, lo, hi))
  {
    hide VhEffect, HostEffect, Writes, Reads, Outside, Clear, Put, Handle, MsgOf, GoodReply;
    if op.IsVH() {
      VhCommutes(env, op, w.host, es, lo, hi);
    } else {
      var h' := Put(w.host, es, lo, hi);
      forall y | 0 <= y < |w.host| && !Outside(y, Reads(env, op)) ensures h'[y] == w.host[y] {
        ClearAt(es, lo, hi, Reads(env, op), y);
        PutElsewhere(w.host, es, lo, hi, y);
      }
      MsgFrame(env, op, w.host, h');
      HandleReplies(env, op, w.ve, w.host);
      ReplyCommutes(env, op, w.host, Handle(env, w.ve, MsgOf(env, op, w.host)).1, es, lo, hi);
    }
  }

  // ---- clean runs: nothing is stolen, everything ends OK ----

  /** Each result is referred to once, and users took none of those. */
  ghost predicate Unstolen(book: Book, pending: map<Tid, Pend>, delivered: map<nat, Recipient>, refs: set<nat>) {
    && (forall x :: x in delivered && delivered[x].ToUser? ==> x !in refs)
    && (forall id :: id in book ==> book[id].cmd.op.Refs() <= refs)
    && (forall t :: t in pending ==> pending[t].cmd.op.Refs() <= refs)
    && (forall a, b :: a in book && b in book && a != b ==> book[a].cmd.op.Refs() !! book[b].cmd.op.Refs())
    && (forall a, t :: a in book && t in pending ==> book[a].cmd.op.Refs() !! pending[t].cmd.op.Refs())
    && (forall t, u :: t in pending && u in pending && t != u ==> pending[t].cmd.op.Refs() !! pending[u].cmd.op.Refs())
  }

  ghost predicate AllOk(phase: Phase, book: Book) {
    && (forall id :: id in book && book[id].loc.Finished? ==> book[id].loc.out.res.status == Ok)
    && (phase.Settled? ==> phase.out.res.status == Ok && !phase.bad)
  }

  ghost predicate CleanInv(s: State) {
    s.hist.clean ==>
      && Unstolen(s.hist.book, s.pending, s.ledger.delivered, s.hist.refs)
      && AllOk(s.phase, s.hist.book)
      && (forall k :: 0 <= k < s.served && k < |s.wire| && s.wire[k].reply.Some? ==> !s.wire[k].reply.value.Exc?)
      && !s.phase.Failing?
  }

  /** In a clean state, what a command refers to has not been given to anybody. */
  lemma RefsUntaken(env: Env, s: State, c: Command)
    requires Inv(env, s) && ChainInv(s) && CleanInv(s) && s.hist.clean
    requires c.id in s.hist.book && s.hist.book[c.id].cmd == c && !HasRun(s.phase, s.hist.book, c.id)
    ensures forall r :: r in c.op.Refs() ==> r !in s.ledger.delivered
  {
    hide Inv, Verdicts, Freed, AllOk;
  }

  lemma UnstolenIssue(book: Book, pending: map<Tid, Pend>, delivered: map<nat, Recipient>, refs: set<nat>, tid: Tid, c: Command)
    requires Unstolen(book, pending, delivered, refs) && tid !in pending
    requires c.op.Refs() !! refs && c.op.Refs() !! delivered.Keys
    ensures Unstolen(book, pending[tid := Pend(c, true)], delivered, refs + c.op.Refs())
  {
    UnstolenAdd(book, pending, delivered, refs, tid, Pend(c, true), c.op.Refs());
  }

  lemma UnstolenAdd(book: Book, pending: map<Tid, Pend>, delivered: map<nat, Recipient>, refs: set<nat>, tid: Tid, p: Pend, more: set<nat>)
    requires Unstolen(book, pending, delivered, refs) && tid !in pending
    requires p.cmd.op.Refs() == more && more !! refs && more !! delivered.Keys
    ensures Unstolen(book, pending[tid := p], delivered, refs + more)
  {
    var q := pending[tid := p];
    forall a, t | a in book && t in q ensures book[a].cmd.op.Refs() !! q[t].cmd.op.Refs() {
      if t == tid { assert book[a].cmd.op.Refs() <= refs; }
    }
    forall t, u | t in q && u in q && t != u ensures q[t].cmd.op.Refs() !! q[u].cmd.op.Refs() {
      if t == tid { assert pending[u].cmd.op.Refs() <= refs; }
      else if u == tid { assert pending[t].cmd.op.Refs() <= refs; }
    }
  }

  lemma UnstolenPush(book: Book, pending: map<Tid, Pend>, delivered: map<nat, Recipient>, refs: set<nat>, tid: Tid, e: Entry)
    requires Unstolen(book, pending, delivered, refs) && tid in pending && e.cmd == pending[tid].cmd && e.cmd.id !in book
    ensures Unstolen(book[e.cmd.id := e], pending - {tid}, delivered, refs)
  {
    var b := book[e.cmd.id := e];
    forall x, y | x in b && y in b && x != y ensures b[x].cmd.op.Refs() !! b[y].cmd.op.Refs() {
      if x == e.cmd.id { assert book[y].cmd.op.Refs() !! pending[tid].cmd.op.Refs(); }
      else if y == e.cmd.id { assert book[x].cmd.op.Refs() !! pending[tid].cmd.op.Refs(); }
    }
  }

  lemma UnstolenForget(book: Book, pending: map<Tid, Pend>, delivered: map<nat, Recipient>, refs: set<nat>, tid: Tid)
    requires Unstolen(book, pending, delivered, refs) && tid in pending
    ensures Unstolen(book, pending[tid := pending[tid].(owed := false)], delivered, refs)
  {
  }

  lemma UnstolenRoll(a: Book, b: Book, pending: map<Tid, Pend>, d: map<nat, Recipient>, d': map<nat, Recipient>, refs: set<nat>)
    requires Unstolen(a, pending, d, refs) && a.Keys == b.Keys && forall id :: id in a ==> a[id].cmd == b[id].cmd
    requires forall x :: x in d' && d'[x].ToUser? ==> x !in refs
    ensures Unstolen(b, pending, d', refs)
  {
  }

  /** In a clean run a command that is answered or run ends OK. */
  lemma SettledOk(env: Env, s: State, t: State)
    requires Inv(env, s) && ChainInv(s) && CleanInv(s) && s.hist.clean && t.phase.Settled? && t.phase.cmd.id in t.hist.book
    requires var c := t.phase.cmd; c.id in s.hist.book && s.hist.book[c.id].cmd == c && !HasRun(s.phase, s.hist.book, c.id)
    requires Verdict(t.hist.book, t.ledger.delivered, t.phase.cmd.id, t.phase.cmd.op, t.phase.out)
    requires t.phase.out.fate.Answered? || t.phase.out.fate.Ran?
    requires forall x :: x in t.ledger.delivered ==> x in s.ledger.delivered || t.ledger.delivered[x] == ToCommand(t.phase.cmd.id)
    requires forall x :: x in t.hist.book && t.hist.book[x].loc.Finished? ==>
      x in s.hist.book && s.hist.book[x].loc == t.hist.book[x].loc
    ensures t.phase.out.res.status == Ok
  {
    hide Inv, ChainInv, Unstolen, Grows;
    RefsUntaken(env, s, t.phase.cmd);
    var c := t.phase.cmd;
    var op := c.op;
    forall p: Option<nat>, st | Picked(t.hist.book, t.ledger.delivered, p, c.id, st) && (p.Some? ==> p.value in op.Refs())
      ensures st == Ok
    {
    }
    if op.Join? {
      var w, k, r :|
        && Picked(t.hist.book, t.ledger.delivered, op.write, c.id, w) && Picked(t.hist.book, t.ledger.delivered, op.call, c.id, k)
        && Picked(t.hist.book, t.ledger.delivered, op.read, c.id, r) && t.phase.out.res.status == First(w, k, r)
        && PickedValue(t.hist.book, t.ledger.delivered, op.call, c.id, t.phase.out.res.retval);
    }
  }

  lemma IssueClean(s: State, tid: Tid, op: Op)
    requires CleanInv(s) && tid !in s.pending
    ensures CleanInv(DoIssue(s, tid, op))
  {
    hide Unstolen, AllOk;
    if DoIssue(s, tid, op).hist.clean {
      UnstolenIssue(s.hist.book, s.pending, s.ledger.delivered, s.hist.refs, tid, Command(s.seqNo, op));
    }
  }

  lemma ForgetClean(s: State, tid: Tid)
    requires CleanInv(s) && CanForget(s, tid)
    ensures CleanInv(DoForget(s, tid))
  {
    hide Unstolen, AllOk;
    if s.hist.clean { UnstolenForget(s.hist.book, s.pending, s.ledger.delivered, s.hist.refs, tid); }
  }

  lemma PushClean(env: Env, s: State, tid: Tid)
    requires Inv(env, s) && CleanInv(s) && CanPush(s, tid)
    ensures CleanInv(DoPush(s, tid))
  {
    hide Inv, Unstolen;
    PushReady(env, s, tid);
    if s.hist.clean {
      UnstolenPush(s.hist.book, s.pending, s.ledger.delivered, s.hist.refs, tid, Entry(s.pending[tid].cmd, |s.hist.pushed|, Queued));
    }
  }

  lemma SubmitterClean(env: Env, s: State, st: Step)
    requires Inv(env, s) && CleanInv(s) && Enabled(env, s, st)
    requires st.Issue? || st.Forget? || st.Lock? || st.Unlock? || st.PushReq? || st.Enter? || st.Leave?
    ensures CleanInv(Next(env, s, st))
  {
    hide Inv, Unstolen, OpOk, RefsOk;
    match st
    case Issue(t, op) => IssueClean(s, t, op);
    case Forget(t) => ForgetClean(s, t);
    case PushReq(t) => PushClean(env, s, t);
    case _ =>
  }

  lemma UnstolenSame(a: Book, b: Book, pending: map<Tid, Pend>, d: map<nat, Recipient>, refs: set<nat>)
    requires Unstolen(a, pending, d, refs) && a.Keys == b.Keys && forall id :: id in a ==> a[id].cmd == b[id].cmd
    ensures Unstolen(b, pending, d, refs)
  {
    UnstolenRoll(a, b, pending, d, d, refs);
  }

  lemma AllOkMove(phase: Phase, book: Book, phase': Phase, id: nat, to: Loc)
    requires AllOk(phase, book) && id in book && !phase'.Settled?
    requires to.Finished? ==> to.out.res.status == Ok
    ensures AllOk(phase', SetLoc(book, id, to))
  {
  }

  /** A step that moves one command and leaves the results alone. */
  lemma MoveClean(s: State, t: State, id: nat, to: Loc)
    requires CleanInv(s) && s.hist.clean && id in s.hist.book && t.hist.book == SetLoc(s.hist.book, id, to)
    requires t.pending == s.pending && t.ledger.delivered == s.ledger.delivered && t.hist.refs == s.hist.refs
    requires !t.phase.Settled? && !t.phase.Failing?
    requires to.Finished? ==> to.out.res.status == Ok
    requires forall k :: 0 <= k < t.served && k < |t.wire| && t.wire[k].reply.Some? ==> !t.wire[k].reply.value.Exc?
    ensures CleanInv(t)
  {
    hide Unstolen, AllOk;
    AllOkMove(s.phase, s.hist.book, t.phase, id, to);
    UnstolenSame(s.hist.book, t.hist.book, s.pending, s.ledger.delivered, s.hist.refs);
  }

  lemma PopClean(env: Env, s: State)
    requires Inv(env, s) && CleanInv(s) && CanPop(s)
    ensures CleanInv(DoPop(s))
  {
    hide Inv, Unstolen, AllOk;
    HeadQueued(env, s);
    if s.hist.clean { MoveClean(s, DoPop(s), s.request[0].id, Held); }
  }

  lemma PutBackClean(env: Env, s: State)
    requires Inv(env, s) && CleanInv(s) && CanPutBack(s)
    ensures CleanInv(DoPutBack(s))
  {
    hide Inv, Unstolen, AllOk;
    InHand(env, s);
    if s.hist.clean { MoveClean(s, DoPutBack(s), s.phase.cmd.id, Queued); }
  }

  lemma SubmitClean(env: Env, s: State)
    requires Inv(env, s) && CleanInv(s) && CanSubmit(s)
    ensures CleanInv(DoSubmit(env, s))
  {
    hide Inv, Unstolen, AllOk, MsgOf;
    InHand(env, s);
    if s.hist.clean { MoveClean(s, DoSubmit(env, s), s.phase.cmd.id, Flying(s.nextReq)); }
  }

  lemma CompleteClean(env: Env, s: State)
    requires Inv(env, s) && CleanInv(s) && s.phase.Settled?
    ensures CleanInv(DoComplete(s))
  {
    hide Inv, Unstolen, Insert;
    InHand(env, s);
    if s.hist.clean { MoveClean(s, DoComplete(s), s.phase.cmd.id, Finished(s.phase.out)); }
  }

  lemma ServeClean(env: Env, s: State, f: Fault)
    requires CleanInv(s) && CanServe(s, f)
    ensures CleanInv(DoServe(env, s, f))
  {
    hide Unstolen, AllOk;
  }

  lemma CollectClean(s: State, tid: Tid, id: nat)
    requires CleanInv(s)
    ensures CleanInv(DoCollect(s, tid, id))
  {
    var t := DoCollect(s, tid, id);
    if t.hist.clean {
      PeekDelivers(s.ledger, Some(id), ToUser(tid));
      UnstolenRoll(s.hist.book, t.hist.book, s.pending, s.ledger.delivered, t.ledger.delivered, s.hist.refs);
    }
  }

  lemma UnstolenCommands(a: Book, b: Book, pending: map<Tid, Pend>, d: map<nat, Recipient>, d': map<nat, Recipient>, refs: set<nat>)
    requires Unstolen(a, pending, d, refs) && a.Keys == b.Keys && forall id :: id in a ==> a[id].cmd == b[id].cmd
    requires forall x :: x in d' && d'[x].ToUser? ==> x in d && d'[x] == d[x]
    ensures Unstolen(b, pending, d', refs)
  {
    UnstolenRoll(a, b, pending, d, d', refs);
  }

  /** In a clean state the reply at hand has its command and is no exception. */
  lemma CleanReply(env: Env, s: State)
    requires Inv(env, s) && CleanInv(s) && s.hist.clean && CanReceive(s)
    ensures s.wire[0].req in s.inflight && !s.wire[0].reply.value.Exc?
    ensures GoodReply(env, s.inflight[s.wire[0].req].op, s.wire[0].reply.value)
  {
    hide Tickets, Backward, Queue, Hand, Flight, Wire, Slotted, Books, Issued, Sessions, Fifo, Barrier, Unstolen, AllOk;
    if s.wire[0].req in s.inflight { ReplyFits(env, s); } else { ReplyHasCommand(env, s); }
  }

  lemma GoodReplyIsFine(env: Env, l: Ledger, cmd: Command, reply: Reply)
    requires GoodReply(env, cmd.op, reply)
    ensures var a := OnReply(l, cmd, reply); !a.bad && a.out.fate == Answered
  {
    hide Peek;
  }

  lemma ReceiveClean(env: Env, s: State)
    requires Inv(env, s) && ChainInv(s) && CleanInv(s) && CanReceive(s)
    ensures CleanInv(DoReceive(s))
  {
    hide Inv, Unstolen, AllOk, OnReply, HostEffect, Verdict, GoodReply, Recipients, Freed;
    var t := DoReceive(s);
    if s.hist.clean {
      CleanReply(env, s);
      var c := s.inflight[s.wire[0].req];
      var reply := s.wire[0].reply.value;
      ReceiveChains(env, s);
      OldestReply(env, s);
      ReplyDelivers(s.ledger, c, reply);
      GoodReplyIsFine(env, s.ledger, c, reply);
      SettledOk(env, s, t);
      UnstolenCommands(s.hist.book, t.hist.book, s.pending, s.ledger.delivered, t.ledger.delivered, s.hist.refs);
      AllOkTake(s.phase, s.hist.book, t.phase);
    }
  }

  lemma AllOkTake(phase: Phase, book: Book, phase': Phase)
    requires AllOk(phase, book) && phase'.Settled? && phase'.cmd.id in book
    requires phase'.out.res.status == Ok && !phase'.bad
    ensures AllOk(phase', SetLoc(book, phase'.cmd.id, Held)) && AllOk(phase', book)
  {
  }

  lemma RunVHClean(env: Env, s: State)
    requires Inv(env, s) && ChainInv(s) && CleanInv(s) && CanRunVH(s)
    ensures CleanInv(DoRunVH(env, s))
    ensures s.hist.clean ==> OnVH(env, s.ledger, s.host, s.phase.cmd).readOk
  {
    hide Inv, Unstolen, AllOk, VhEffect, Verdict, Recipients, Freed, Peek;
    var t := DoRunVH(env, s);
    if s.hist.clean {
      var c := s.phase.cmd;
      RunVHChains(env, s);
      InHand(env, s);
      VHDelivers(env, s.ledger, s.host, c);
      SettledOk(env, s, t);
      UnstolenCommands(s.hist.book, t.hist.book, s.pending, s.ledger.delivered, t.ledger.delivered, s.hist.refs);
      AllOkTake(s.phase, s.hist.book, t.phase);
    }
  }

  lemma CleanStep(env: Env, s: State, st: Step)
    requires Inv(env, s) && ChainInv(s) && CleanInv(s) && Enabled(env, s, st)
    ensures CleanInv(Next(env, s, st))
  {
    hide Inv, ChainInv;
    match st
    case Collect(t, id) => CollectClean(s, t, id);
    case Receive => ReceiveClean(env, s);
    case Complete => CompleteClean(env, s);
    case Pop => PopClean(env, s);
    case PutBack => PutBackClean(env, s);
    case RunVH => RunVHClean(env, s);
    case Submit => SubmitClean(env, s);
    case Serve(f) => ServeClean(env, s, f);
    case Refuse =>
    case Abort =>
    case PeerDeath =>
    case HostWrite(_, _) =>
    case _ => SubmitterClean(env, s, st);
  }

  // ---- the simulation ----

  /** A slot carries what its command sends and receives when its turn comes. */
  ghost predicate SlotSim(env: Env, p: Program, k: nat, slot: Slot, served: bool, book: Book) {
    && k < |p.pushed| && slot.id in book && book[slot.id].pos == k && !p.pushed[k].cmd.op.IsVH()
    && slot.msg == MsgOf(env, p.pushed[k].cmd.op, After(env, p, k).host)
    && (served ==> slot.reply == Some(Handle(env, After(env, p, k).ve, slot.msg).1))
  }

  /** Host memory is that after the answered commands and all writes, VE memory that after the served commands. */
  ghost predicate Sim(env: Env, p: Program, begun: int, wire: seq<Slot>, served: nat, book: Book, ve: Mem, host: Mem) {
    var base := begun - |wire|;
    && 0 <= base && begun <= |p.pushed| && served <= |wire|
    && host == HostNow(env, p, base)
    && ve == After(env, p, base + served).ve
    && (forall k :: 0 <= k < |wire| ==> SlotSim(env, p, base + k, wire[k], k < served, book))
  }

  function ReplyWord(r: Reply): Word { if r.Value? || r.Stack? then r.v else 0 }

  /** The value a call returns when its turn comes. */
  function CallValue(env: Env, w: World, op: Op): Word
    requires op.Call?
  {
    ReplyWord(Handle(env, w.ve, MsgOf(env, op, w.host)).1)
  }

  /** Requests whose value is their own: calls, VH functions and requests to other VE handlers. */
  predicate HasValue(op: Op) { op.Call? || op.Generic? || op.Vh? || op.Nop? }

  /** The value such a request returns when its turn comes. */
  function TurnValue(env: Env, w: World, op: Op): Word
    requires HasValue(op)
  {
    match op
    case Generic(cmd, _) => if env.acks(cmd) then 0 else env.generic(cmd, w.ve).1
    case Vh(f, a, n) => env.vh(f, Read(w.host, a, n)).1
    case Nop => 0
    case _ => CallValue(env, w, op)
  }

  ghost predicate Values(env: Env, p: Program, phase: Phase, book: Book) {
    && (forall id :: id in book && HasValue(book[id].cmd.op) && book[id].loc.Finished? ==>
          book[id].pos < |p.pushed|
          && book[id].loc.out.res.retval == TurnValue(env, After(env, p, book[id].pos), book[id].cmd.op))
    && (phase.Settled? && HasValue(phase.cmd.op) ==>
          phase.cmd.id in book && book[phase.cmd.id].pos < |p.pushed|
          && phase.out.res.retval == TurnValue(env, After(env, p, book[phase.cmd.id].pos), phase.cmd.op))
  }

  /** Writes made after a command was pushed keep away from it until it is finished. */
  ghost predicate Untouched(env: Env, stores: seq<Stored>, book: Book) {
    forall i, id :: 0 <= i < |stores| && id in book && !book[id].loc.Finished? && book[id].pos < stores[i].pos ==>
      AllApart([Area(stores[i])], Reads(env, book[id].cmd.op)) && AllApart([Area(stores[i])], Writes(env, book[id].cmd.op))
  }

  ghost predicate SimInv(env: Env, s: State) {
    && Ordered(s.hist.stores, |s.hist.pushed|)
    && (s.hist.clean ==> Untouched(env, s.hist.stores, s.hist.book))
    && (s.hist.clean && !s.hist.raced ==>
          && Sim(env, Prog(s.hist), Begun(s), s.wire, s.served, s.hist.book, s.ve, s.host)
          && Values(env, Prog(s.hist), s.phase, s.hist.book))
  }

  lemma UntouchedClear(env: Env, stores: seq<Stored>, book: Book, id: nat, hi: int)
    requires Untouched(env, stores, book) && id in book && !book[id].loc.Finished?
    ensures Clear(stores, book[id].pos, hi, Reads(env, book[id].cmd.op))
    ensures Clear(stores, book[id].pos, hi, Writes(env, book[id].cmd.op))
  {
    hide AllApart, Reads, Writes;
  }

  /** Commands keep away from writes as they move on. */
  lemma UntouchedRoll(env: Env, stores: seq<Stored>, a: Book, b: Book)
    requires Untouched(env, stores, a) && SameRoll(a, b)
    requires forall id :: id in a && a[id].loc.Finished? ==> b[id].loc.Finished?
    ensures Untouched(env, stores, b)
  {
    hide AllApart, Reads, Writes;
  }

  lemma UntouchedPush(env: Env, stores: seq<Stored>, book: Book, n: nat, c: Command)
    requires Untouched(env, stores, book) && Ordered(stores, n) && c.id !in book
    ensures Untouched(env, stores, book[c.id := Entry(c, n, Queued)]) && Ordered(stores, n + 1)
  {
    hide AllApart, Reads, Writes;
  }

  lemma UntouchedWrite(env: Env, stores: seq<Stored>, book: Book, n: nat, a: nat, d: seq<Byte>)
    requires Ordered(stores, n)
    ensures Ordered(stores + [Stored(n, a, d)], n)
    ensures Untouched(env, stores, book) && Unused(env, book, Region(a, |d|)) ==> Untouched(env, stores + [Stored(n, a, d)], book)
  {
    hide AllApart, Reads, Writes;
    var es := stores + [Stored(n, a, d)];
    assert Area(es[|stores|]) == Region(a, |d|);
    forall i | 0 <= i < |stores| ensures es[i] == stores[i] { }
  }

  lemma SimPush(env: Env, p: Program, begun: int, wire: seq<Slot>, served: nat, book: Book, ve: Mem, host: Mem, q: Push)
    requires Sim(env, p, begun, wire, served, book, ve, host) && q.cmd.id !in book && Ordered(p.stores, |p.pushed|)
    ensures Sim(env, p.(pushed := p.pushed + [q]), begun, wire, served, book[q.cmd.id := Entry(q.cmd, |p.pushed|, Queued)], ve, host)
  {
    hide After, Put;
    var base := begun - |wire|;
    var b := book[q.cmd.id := Entry(q.cmd, |p.pushed|, Queued)];
    var p' := p.(pushed := p.pushed + [q]);
    AfterPush(env, p, q, base);
    AfterPush(env, p, q, base + served);
    PutAll(After(env, p, base).host, p.stores, base, |p.pushed|, |p'.pushed|);
    forall k | 0 <= k < |wire| ensures SlotSim(env, p', base + k, wire[k], k < served, b) {
      assert SlotSim(env, p, base + k, wire[k], k < served, book);
      AfterPush(env, p, q, base + k);
    }
  }

  lemma ValuesPush(env: Env, p: Program, phase: Phase, book: Book, q: Push)
    requires Values(env, p, phase, book) && q.cmd.id !in book
    ensures Values(env, p.(pushed := p.pushed + [q]), phase, book[q.cmd.id := Entry(q.cmd, |p.pushed|, Queued)])
  {
    hide After, TurnValue;
    forall k: nat | k <= |p.pushed| ensures After(env, p.(pushed := p.pushed + [q]), k) == After(env, p, k) {
      AfterPush(env, p, q, k);
    }
  }

  lemma SimWrite(env: Env, p: Program, begun: int, wire: seq<Slot>, served: nat, book: Book, ve: Mem, host: Mem, e: Stored)
    requires Sim(env, p, begun, wire, served, book, ve, host) && e.pos == |p.pushed| && Ordered(p.stores, |p.pushed|)
    ensures Sim(env, p.(stores := p.stores + [e]), begun, wire, served, book, ve, Write(host, e.addr, e.bytes))
  {
    hide After;
    var base, n := begun - |wire|, |p.pushed|;
    var p' := p.(stores := p.stores + [e]);
    AfterStore(env, p, e, base);
    AfterStore(env, p, e, base + served);
    assert p'.stores[..|p.stores|] == p.stores;
    if base == n {
      PutNone(After(env, p, n).host, p.stores, n, n);
      PutNone(After(env, p', n).host, p'.stores, n, n);
    }
    forall k | 0 <= k < |wire| ensures SlotSim(env, p', base + k, wire[k], k < served, book) {
      assert SlotSim(env, p, base + k, wire[k], k < served, book);
      AfterStore(env, p, e, base + k);
    }
  }

  lemma ValuesWrite(env: Env, p: Program, phase: Phase, book: Book, e: Stored)
    requires Values(env, p, phase, book) && e.pos == |p.pushed|
    ensures Values(env, p.(stores := p.stores + [e]), phase, book)
  {
    hide After, TurnValue;
    forall k: nat | k < |p.pushed| ensures After(env, p.(stores := p.stores + [e]), k) == After(env, p, k) {
      AfterStore(env, p, e, k);
    }
  }

  lemma SimRoll(env: Env, p: Program, begun: int, wire: seq<Slot>, served: nat, a: Book, b: Book, ve: Mem, host: Mem)
    requires Sim(env, p, begun, wire, served, a, ve, host) && SameRoll(a, b)
    ensures Sim(env, p, begun, wire, served, b, ve, host)
  {
    hide After;
    var base := begun - |wire|;
    forall k | 0 <= k < |wire| ensures SlotSim(env, p, base + k, wire[k], k < served, b) {
      assert SlotSim(env, p, base + k, wire[k], k < served, a);
    }
  }

  lemma SimSubmit(env: Env, p: Program, begun: int, wire: seq<Slot>, served: nat, book: Book, ve: Mem, host: Mem, req: nat)
    requires Sim(env, p, begun, wire, served, book, ve, host) && Ordered(p.stores, |p.pushed|)
    requires begun < |p.pushed| && !p.pushed[begun].cmd.op.IsVH() && Ahead(env, p.pushed, begun - |wire|, begun)
    requires Clear(p.stores, begun, |p.pushed|, Reads(env, p.pushed[begun].cmd.op))
    requires p.pushed[begun].cmd.id in book && book[p.pushed[begun].cmd.id].pos == begun
    ensures var c := p.pushed[begun].cmd;
      Sim(env, p, begun + 1, wire + [Slot(req, c.id, MsgOf(env, c.op, host), None)], served, book, ve, host)
  {
    hide After, MsgOf, Handle, Ahead, Clear, Ordered, HostNow;
    var base := begun - |wire|;
    var c := p.pushed[begun].cmd;
    var slot := Slot(req, c.id, MsgOf(env, c.op, host), None);
    var w := wire + [slot];
    MsgInTurn(env, p, base, begun);
    forall k | 0 <= k < |w| ensures SlotSim(env, p, base + k, w[k], k < served, book) {
      if k < |wire| { assert SlotSim(env, p, base + k, wire[k], k < served, book); }
    }
  }

  lemma SimServe(env: Env, p: Program, begun: int, wire: seq<Slot>, served: nat, book: Book, ve: Mem, host: Mem)
    requires Sim(env, p, begun, wire, served, book, ve, host) && served < |wire|
    ensures var h := Handle(env, ve, wire[served].msg);
      Sim(env, p, begun, wire[served := wire[served].(reply := Some(h.1))], served + 1, book, h.0, host)
  {
    hide After, MsgOf, Handle, HostEffect, HostNow;
    var base := begun - |wire|;
    var h := Handle(env, ve, wire[served].msg);
    var w := wire[served := wire[served].(reply := Some(h.1))];
    assert SlotSim(env, p, base + served, wire[served], false, book);
    AfterVE(env, p, base + served);
    forall k | 0 <= k < |w| ensures SlotSim(env, p, base + k, w[k], k < served + 1, book) {
      assert SlotSim(env, p, base + k, wire[k], k < served, book);
    }
  }

  /** A VE command in its turn. */
  lemma AfterVE(env: Env, p: Program, k: nat)
    requires k < |p.pushed| && !p.pushed[k].cmd.op.IsVH()
    ensures var op, w := p.pushed[k].cmd.op, After(env, p, k); var h := Handle(env, w.ve, MsgOf(env, op, w.host));
      After(env, p, k + 1) == World(h.0, Put(HostEffect(op, w.host, h.1), p.stores, k, k + 1))
  {
    hide Put, Handle, MsgOf, HostEffect;
  }

  /** Host memory when the reply of command `k` has been taken. */
  lemma ReplyNow(env: Env, p: Program, k: nat)
    requires k < |p.pushed| && !p.pushed[k].cmd.op.IsVH() && Ordered(p.stores, |p.pushed|)
    requires Clear(p.stores, k, |p.pushed|, Writes(env, p.pushed[k].cmd.op))
    ensures var op, w := p.pushed[k].cmd.op, After(env, p, k); var r := Handle(env, w.ve, MsgOf(env, op, w.host)).1;
      HostEffect(op, HostNow(env, p, k), r) == HostNow(env, p, k + 1)
  {
    hide After, Handle, MsgOf, HostEffect, Clear, Put;
    var op, w, n := p.pushed[k].cmd.op, After(env, p, k), |p.pushed|;
    var r := Handle(env, w.ve, MsgOf(env, op, w.host)).1;
    AfterVE(env, p, k);
    HandleReplies(env, op, w.ve, w.host);
    ReplyCommutes(env, op, w.host, r, p.stores, k, n);
    PutJoin(HostEffect(op, w.host, r), p.stores, n, k, k + 1, n);
  }

  lemma ValueInTurn(env: Env, w: World, op: Op)
    requires HasValue(op) && !op.IsVH()
    ensures ReplyWord(Handle(env, w.ve, MsgOf(env, op, w.host)).1) == TurnValue(env, w, op)
  {
  }

  /** A VH function that runs now finds the bytes it would find in its turn. */
  lemma VhValueNow(env: Env, p: Program, k: nat, l: Ledger, id: nat)
    requires k < |p.pushed| && (p.pushed[k].cmd.op.Vh? || p.pushed[k].cmd.op.Nop?)
    requires Clear(p.stores, k, |p.pushed|, Reads(env, p.pushed[k].cmd.op))
    ensures OnVH(env, l, HostNow(env, p, k), Command(id, p.pushed[k].cmd.op)).res
         == Result(Ok, TurnValue(env, After(env, p, k), p.pushed[k].cmd.op))
  {
    hide After, Put, Clear, Outside, Read;
    var op, n, h := p.pushed[k].cmd.op, |p.pushed|, After(env, p, k).host;
    forall x | 0 <= x < |h| && !Outside(x, Reads(env, op)) ensures HostNow(env, p, k)[x] == h[x] {
      ClearAt(p.stores, k, n, Reads(env, op), x);
      PutElsewhere(h, p.stores, k, n, x);
    }
    if op.Vh? { SameBytes(HostNow(env, p, k), h, Reads(env, op), op.addr, op.len); }
  }

  lemma SimReceive(env: Env, p: Program, begun: int, wire: seq<Slot>, served: nat, book: Book, ve: Mem, host: Mem)
    requires Sim(env, p, begun, wire, served, book, ve, host) && served > 0 && Ordered(p.stores, |p.pushed|)
    requires wire[0].id in book && book[wire[0].id].pos < |p.pushed| &&
      Clear(p.stores, book[wire[0].id].pos, |p.pushed|, Writes(env, p.pushed[book[wire[0].id].pos].cmd.op))
    ensures wire[0].reply.Some?
    ensures var op := p.pushed[book[wire[0].id].pos].cmd.op;
      Sim(env, p, begun, wire[1..], served - 1, book, ve, HostEffect(op, host, wire[0].reply.value))
    ensures var k := book[wire[0].id].pos; HasValue(p.pushed[k].cmd.op) ==>
      ReplyWord(wire[0].reply.value) == TurnValue(env, After(env, p, k), p.pushed[k].cmd.op)
  {
    hide After, MsgOf, Handle, HostEffect, HostNow, Clear, Ordered;
    var base := begun - |wire|;
    assert SlotSim(env, p, base + 0, wire[0], true, book);
    ReplyNow(env, p, base);
    if HasValue(p.pushed[base].cmd.op) { ValueInTurn(env, After(env, p, base), p.pushed[base].cmd.op); }
    var w := wire[1..];
    forall k | 0 <= k < |w| ensures SlotSim(env, p, base + 1 + k, w[k], k < served - 1, book) {
      assert SlotSim(env, p, base + (k + 1), wire[k + 1], k + 1 < served, book);
    }
  }

  /** Host memory when VH command `k` has run. */
  lemma VhNow(env: Env, p: Program, k: nat)
    requires k < |p.pushed| && p.pushed[k].cmd.op.IsVH() && Ordered(p.stores, |p.pushed|)
    requires Clear(p.stores, k, |p.pushed|, Writes(env, p.pushed[k].cmd.op))
    requires Clear(p.stores, k, |p.pushed|, Reads(env, p.pushed[k].cmd.op))
    ensures VhEffect(env, p.pushed[k].cmd.op, HostNow(env, p, k), true) == HostNow(env, p, k + 1)
    ensures After(env, p, k + 1).ve == After(env, p, k).ve
  {
    hide VhEffect, Clear, Put;
    var op, w, n := p.pushed[k].cmd.op, After(env, p, k), |p.pushed|;
    VhCommutes(env, op, w.host, p.stores, k, n);
    PutJoin(VhEffect(env, op, w.host, true), p.stores, n, k, k + 1, n);
  }

  lemma SimVH(env: Env, p: Program, begun: int, book: Book, ve: Mem, host: Mem)
    requires Sim(env, p, begun, [], 0, book, ve, host) && Ordered(p.stores, |p.pushed|)
    requires begun < |p.pushed| && p.pushed[begun].cmd.op.IsVH()
    requires Clear(p.stores, begun, |p.pushed|, Writes(env, p.pushed[begun].cmd.op))
    requires Clear(p.stores, begun, |p.pushed|, Reads(env, p.pushed[begun].cmd.op))
    ensures Sim(env, p, begun + 1, [], 0, book, ve, VhEffect(env, p.pushed[begun].cmd.op, host, true))
  {
    hide After, VhEffect, HostNow, Clear, Ordered;
    VhNow(env, p, begun);
  }

  lemma ValuesMove(env: Env, p: Program, phase: Phase, book: Book, phase': Phase, id: nat, to: Loc)
    requires Values(env, p, phase, book) && id in book && !phase'.Settled?
    requires to.Finished? ==> phase.Settled? && id == phase.cmd.id && book[id].cmd == phase.cmd && to.out == phase.out
    ensures Values(env, p, phase', SetLoc(book, id, to))
  {
    hide After, TurnValue;
  }

  lemma ValuesTake(env: Env, p: Program, phase: Phase, book: Book, phase': Phase, to: Loc)
    requires Values(env, p, phase, book) && phase'.Settled? && !to.Finished?
    requires phase'.cmd.id in book && book[phase'.cmd.id].pos < |p.pushed|
    requires HasValue(phase'.cmd.op) ==>
      phase'.out.res.retval == TurnValue(env, After(env, p, book[phase'.cmd.id].pos), phase'.cmd.op)
    ensures Values(env, p, phase', SetLoc(book, phase'.cmd.id, to))
    ensures Values(env, p, phase', book)
  {
    hide After, TurnValue;
  }

  lemma ValuesIdle(env: Env, p: Program, phase: Phase, book: Book, phase': Phase)
    requires Values(env, p, phase, book) && !phase'.Settled?
    ensures Values(env, p, phase', book)
  {
    hide After, TurnValue;
  }

  lemma PushSim(env: Env, s: State, tid: Tid)
    requires Inv(env, s) && SimInv(env, s) && CanPush(s, tid)
    ensures SimInv(env, DoPush(s, tid))
  {
    hide Inv, Sim, Values, Untouched, Ordered;
    PushReady(env, s, tid);
    var c := s.pending[tid].cmd;
    var q := Push(c, tid, s.session);
    MoreOrdered(s.hist.stores, |s.hist.pushed|);
    if s.hist.clean { UntouchedPush(env, s.hist.stores, s.hist.book, |s.hist.pushed|, c); }
    if s.hist.clean && !s.hist.raced {
      SimPush(env, Prog(s.hist), Begun(s), s.wire, s.served, s.hist.book, s.ve, s.host, q);
      ValuesPush(env, Prog(s.hist), s.phase, s.hist.book, q);
    }
  }

  lemma MoreOrdered(es: seq<Stored>, n: nat)
    requires Ordered(es, n)
    ensures Ordered(es, n + 1)
  {
  }

  lemma WriteSim(env: Env, s: State, a: nat, d: seq<Byte>)
    requires SimInv(env, s) && CanHostWrite(s, a, d)
    ensures SimInv(env, DoHostWrite(env, s, a, d))
  {
    hide Sim, Values, Untouched, Ordered, Unused, Write;
    var t, e := DoHostWrite(env, s, a, d), Stored(|s.hist.pushed|, a, d);
    UntouchedWrite(env, s.hist.stores, s.hist.book, |s.hist.pushed|, a, d);
    if t.hist.clean && !s.hist.raced {
      SimWrite(env, Prog(s.hist), Begun(s), s.wire, s.served, s.hist.book, s.ve, s.host, e);
      ValuesWrite(env, Prog(s.hist), s.phase, s.hist.book, e);
    }
  }

  /** A step that only moves a command. */
  lemma MoveSim(env: Env, s: State, t: State, id: nat, to: Loc)
    requires SimInv(env, s) && id in s.hist.book && (s.hist.book[id].loc.Finished? ==> to.Finished?)
    requires t == s.(phase := t.phase, request := t.request, ledger := t.ledger,
                     hist := s.hist.(book := SetLoc(s.hist.book, id, to))) && Begun(t) == Begun(s)
    requires !t.phase.Settled?
    requires to.Finished? ==>
      s.phase.Settled? && id == s.phase.cmd.id && s.hist.book[id].cmd == s.phase.cmd && to.out == s.phase.out
    ensures SimInv(env, t)
  {
    hide Sim, Values, Untouched, Ordered;
    if s.hist.clean { UntouchedRoll(env, s.hist.stores, s.hist.book, t.hist.book); }
    if s.hist.clean && !s.hist.raced {
      SimRoll(env, Prog(s.hist), Begun(s), s.wire, s.served, s.hist.book, t.hist.book, s.ve, s.host);
      ValuesMove(env, Prog(s.hist), s.phase, s.hist.book, t.phase, id, to);
    }
  }

  lemma PopSim(env: Env, s: State)
    requires Inv(env, s) && SimInv(env, s) && CanPop(s)
    ensures SimInv(env, DoPop(s))
  {
    hide Inv, SimInv;
    HeadQueued(env, s);
    MoveSim(env, s, DoPop(s), s.request[0].id, Held);
  }

  lemma PutBackSim(env: Env, s: State)
    requires Inv(env, s) && SimInv(env, s) && CanPutBack(s)
    ensures SimInv(env, DoPutBack(s))
  {
    hide Inv, SimInv;
    InHand(env, s);
    MoveSim(env, s, DoPutBack(s), s.phase.cmd.id, Queued);
  }

  lemma CompleteSim(env: Env, s: State)
    requires Inv(env, s) && SimInv(env, s) && s.phase.Settled?
    ensures SimInv(env, DoComplete(s))
  {
    hide Inv, SimInv, Insert;
    InHand(env, s);
    MoveSim(env, s, DoComplete(s), s.phase.cmd.id, Finished(s.phase.out));
  }

  /** Before an abort a slot on the wire has its command in flight. */
  lemma SlotInFlight(env: Env, s: State, k: nat, i: nat)
    requires Inv(env, s) && !s.hist.aborted && k < |s.wire| && i < |s.hist.pushed|
    requires s.wire[k].id in s.hist.book && s.hist.book[s.wire[k].id].pos == i
    ensures s.wire[k].req in s.inflight && s.inflight[s.wire[k].req] == s.hist.pushed[i].cmd
  {
    hide Backward, Queue, Hand, Wire, Books, Issued, Sessions, Fifo, Barrier;
  }

  lemma SimSlot(env: Env, p: Program, begun: int, wire: seq<Slot>, served: nat, book: Book, ve: Mem, host: Mem, i: nat)
    requires Sim(env, p, begun, wire, served, book, ve, host) && begun - |wire| <= i < begun
    ensures var k := i - (begun - |wire|); wire[k].id in book && book[wire[k].id].pos == i
  {
    hide After, HostNow, MsgOf, Handle;
    var base := begun - |wire|;
    assert SlotSim(env, p, base + (i - base), wire[i - base], i - base < served, book);
  }

  lemma SimHost(env: Env, p: Program, begun: int, wire: seq<Slot>, served: nat, book: Book, ve: Mem, host: Mem)
    requires Sim(env, p, begun, wire, served, book, ve, host)
    ensures 0 <= begun - |wire| <= |p.pushed| && host == HostNow(env, p, begun - |wire|)
  {
    hide After, HostNow, MsgOf, Handle;
  }

  lemma SimBase(env: Env, p: Program, begun: int, wire: seq<Slot>, served: nat, book: Book, ve: Mem, host: Mem)
    requires Sim(env, p, begun, wire, served, book, ve, host)
    ensures 0 <= begun - |wire| <= begun <= |p.pushed|
  {
    hide After, HostNow, SlotSim;
  }

  /** What is on the wire is in flight, so a command sent in the clear is ahead of all of it. */
  lemma WireAhead(env: Env, s: State)
    requires Inv(env, s) && CanSubmit(s) && s.hist.clean && InTheClear(env, s.inflight, s.phase.cmd.op)
    requires Sim(env, Prog(s.hist), Begun(s), s.wire, s.served, s.hist.book, s.ve, s.host)
    ensures 0 <= Begun(s) - |s.wire| <= Begun(s) < |s.hist.pushed| && Ahead(env, s.hist.pushed, Begun(s) - |s.wire|, Begun(s))
  {
    hide Inv, Sim, Reads, Writes, AllApart;
    NotAborted(env, s);
    InHand(env, s);
    SimBase(env, Prog(s.hist), Begun(s), s.wire, s.served, s.hist.book, s.ve, s.host);
    var base := Begun(s) - |s.wire|;
    forall k | base <= k < Begun(s)
      ensures AllApart(Writes(env, s.hist.pushed[k].cmd.op), Reads(env, s.hist.pushed[Begun(s)].cmd.op))
    {
      SimSlot(env, Prog(s.hist), Begun(s), s.wire, s.served, s.hist.book, s.ve, s.host, k);
      SlotInFlight(env, s, k - base, k);
    }
  }

  lemma SubmitSim(env: Env, s: State)
    requires Inv(env, s) && SimInv(env, s) && CanSubmit(s)
    ensures SimInv(env, DoSubmit(env, s))
  {
    hide Inv, Sim, Values, MsgOf, Untouched, Ordered, Clear;
    InHand(env, s);
    var t := DoSubmit(env, s);
    var c := s.phase.cmd;
    if s.hist.clean {
      UntouchedRoll(env, s.hist.stores, s.hist.book, t.hist.book);
      UntouchedClear(env, s.hist.stores, s.hist.book, c.id, |s.hist.pushed|);
      if !t.hist.raced {
        WireAhead(env, s);
        SimSubmit(env, Prog(s.hist), Begun(s), s.wire, s.served, s.hist.book, s.ve, s.host, s.nextReq);
        SimRoll(env, Prog(s.hist), Begun(t), t.wire, s.served, s.hist.book, t.hist.book, s.ve, s.host);
        ValuesMove(env, Prog(s.hist), s.phase, s.hist.book, t.phase, c.id, Flying(s.nextReq));
      }
    }
  }

  lemma ServeSim(env: Env, s: State, f: Fault)
    requires SimInv(env, s) && CanServe(s, f)
    ensures SimInv(env, DoServe(env, s, f))
  {
    hide Sim, Values, Handle, Untouched, Ordered;
    if s.hist.clean && f.NoFault? && !s.hist.raced {
      SimServe(env, Prog(s.hist), Begun(s), s.wire, s.served, s.hist.book, s.ve, s.host);
    }
  }

  lemma ReceiveSim(env: Env, s: State)
    requires Inv(env, s) && CleanInv(s) && SimInv(env, s) && CanReceive(s)
    ensures SimInv(env, DoReceive(s))
  {
    hide Inv, CleanInv, Sim, Values, OnReply, HostEffect, GoodReply, TurnValue, After, Untouched, Ordered, Clear;
    var t := DoReceive(s);
    if s.hist.clean {
      CleanReply(env, s);
      OldestReply(env, s);
      var c := s.inflight[s.wire[0].req];
      BookPush(env, s, c.id);
      UntouchedRoll(env, s.hist.stores, s.hist.book, t.hist.book);
      UntouchedClear(env, s.hist.stores, s.hist.book, c.id, |s.hist.pushed|);
      if !s.hist.raced {
        SimReceive(env, Prog(s.hist), Begun(s), s.wire, s.served, s.hist.book, s.ve, s.host);
        SimRoll(env, Prog(s.hist), Begun(s), t.wire, t.served, s.hist.book, t.hist.book, t.ve, t.host);
        CallReply(env, s.ledger, c, s.wire[0].reply.value);
        ValuesTake(env, Prog(s.hist), s.phase, s.hist.book, t.phase, Held);
      }
    }
  }

  lemma BookPush(env: Env, s: State, id: nat)
    requires Inv(env, s) && id in s.hist.book
    ensures s.hist.book[id].pos < |s.hist.pushed| && s.hist.pushed[s.hist.book[id].pos].cmd == s.hist.book[id].cmd
  {
    hide Backward, Queue, Hand, Flight, Wire, Slotted, Books, Issued, Sessions, Fifo, Barrier;
  }

  lemma CallReply(env: Env, l: Ledger, c: Command, reply: Reply)
    requires GoodReply(env, c.op, reply)
    ensures HasValue(c.op) ==> OnReply(l, c, reply).out.res.retval == ReplyWord(reply)
  {
  }

  lemma WireNeedsFlight(env: Env, s: State)
    requires Inv(env, s) && !s.hist.aborted
    ensures |s.wire| > 0 ==> s.inflight != map[]
    ensures s.served <= |s.wire|
  {
    hide Tickets, Backward, Queue, Hand, Flight, Books, Issued, Sessions, Fifo, Barrier, SlotOk;
    if |s.wire| > 0 { assert s.wire[0].req in s.inflight; }
  }

  /** Before an abort the wire is empty when nothing is in flight. */
  lemma QuietWire(env: Env, s: State)
    requires Inv(env, s) && s.inflight == map[] && !s.hist.aborted
    ensures s.wire == [] && s.served == 0
  {
    hide Inv;
    WireNeedsFlight(env, s);
  }

  lemma RunVHSim(env: Env, s: State)
    requires Inv(env, s) && ChainInv(s) && CleanInv(s) && SimInv(env, s) && CanRunVH(s)
    ensures SimInv(env, DoRunVH(env, s))
  {
    hide Inv, ChainInv, CleanInv, Sim, Values, OnVH, VhEffect, Untouched, Ordered, Clear, TurnValue, HostNow;
    RunVHClean(env, s);
    InHand(env, s);
    var t := DoRunVH(env, s);
    if s.hist.clean && !s.hist.raced {
      NotAborted(env, s);
      QuietWire(env, s);
      UntouchedClear(env, s.hist.stores, s.hist.book, s.phase.cmd.id, |s.hist.pushed|);
      SimVH(env, Prog(s.hist), Begun(s), s.hist.book, s.ve, s.host);
      if HasValue(s.phase.cmd.op) {
        SimBase(env, Prog(s.hist), Begun(s), s.wire, s.served, s.hist.book, s.ve, s.host);
        SimHost(env, Prog(s.hist), Begun(s), s.wire, s.served, s.hist.book, s.ve, s.host);
        VhValueNow(env, Prog(s.hist), Begun(s), s.ledger, s.phase.cmd.id);
      }
      ValuesTake(env, Prog(s.hist), s.phase, s.hist.book, t.phase, Held);
    }
  }

  lemma SimStep(env: Env, s: State, st: Step)
    requires Inv(env, s) && ChainInv(s) && CleanInv(s) && SimInv(env, s) && Enabled(env, s, st)
    ensures SimInv(env, Next(env, s, st))
  {
    hide Inv, ChainInv, CleanInv, Sim, Values, OpOk, RefsOk, Untouched, Ordered, Unused;
    match st
    case PushReq(t) => PushSim(env, s, t);
    case HostWrite(a, d) => WriteSim(env, s, a, d);
    case Receive => ReceiveSim(env, s);
    case Complete => CompleteSim(env, s);
    case Pop => PopSim(env, s);
    case PutBack => PutBackSim(env, s);
    case RunVH => RunVHSim(env, s);
    case Submit => SubmitSim(env, s);
    case Serve(f) => ServeSim(env, s, f);
    case Enter(e) => ValuesIdleInv(env, s, Top(e));
    case Leave => ValuesIdleInv(env, s, Idle);
    case Refuse =>
    case Abort =>
    case PeerDeath =>
    case _ =>
  }

  lemma ValuesIdleInv(env: Env, s: State, phase: Phase)
    requires SimInv(env, s) && !phase.Settled? && !phase.Popped? && !s.phase.Popped?
    ensures SimInv(env, s.(phase := phase))
  {
    hide Sim, Values, Untouched, Ordered;
    if s.hist.clean && !s.hist.raced {
      ValuesIdle(env, Prog(s.hist), s.phase, s.hist.book, phase);
    }
  }

  lemma InitSim(env: Env, s: State)
    requires Init(s)
    ensures CleanInv(s) && SimInv(env, s) && ChainInv(s)
  {
  }

  lemma {:induction false} SimRun(env: Env, s: State, steps: seq<Step>)
    requires Inv(env, s) && ChainInv(s) && CleanInv(s) && SimInv(env, s) && Run(env, s, steps).Some?
    ensures var t := Run(env, s, steps).value; Inv(env, t) && ChainInv(t) && CleanInv(t) && SimInv(env, t)
  {
    hide Inv, ChainInv, CleanInv, SimInv;
    if steps != [] {
      var front := steps[..|steps| - 1];
      SimRun(env, s, front);
      var m := Run(env, s, front).value;
      StepKeeps(env, m, steps[|steps| - 1]);
      ChainStep(env, m, steps[|steps| - 1]);
      CleanStep(env, m, steps[|steps| - 1]);
      SimStep(env, m, steps[|steps| - 1]);
    }
  }

  lemma ReachableSim(env: Env, s: State)
    requires Reachable(env, s)
    ensures Inv(env, s) && ChainInv(s) && CleanInv(s) && SimInv(env, s)
  {
    hide Inv, ChainInv, CleanInv, SimInv, Init;
    var s0, steps :| Init(s0) && Run(env, s0, steps) == Some(s);
    InitInv(env, s0);
    InitSim(env, s0);
    SimRun(env, s0, steps);
  }

  /** Main theorem.  However submissions by many threads, put-backs, delayed VH commands, VE service and
  replies interleave, a run in which nothing failed and no command was sent too early ends, once it has drained, in
  exactly the memories that executing the pushed commands, and the application's writes between them, one after
  the other produces; and all commands ended OK. */
  lemma AsyncIsSequential(env: Env, s: State)
    requires Reachable(env, s) && s.hist.clean && !s.hist.raced
    requires s.request == [] && s.inflight == map[] && s.phase.Idle?
    ensures World(s.ve, s.host) == After(env, Prog(s.hist), |s.hist.pushed|)
    ensures forall i :: 0 <= i < |s.hist.pushed| ==>
      && s.hist.pushed[i].cmd.id in s.hist.book
      && s.hist.book[s.hist.pushed[i].cmd.id].loc.Finished?
      && s.hist.book[s.hist.pushed[i].cmd.id].loc.out.res.status == Ok
  {
    hide Reachable, Run, Inv, ChainInv, CleanInv, SimInv, After;
    ReachableSim(env, s);
    Drained(env, s);
    DrainedWorld(env, s);
    DrainedOk(s);
  }

  lemma NotAborted(env: Env, s: State)
    requires Inv(env, s) && s.hist.clean
    ensures !s.hist.aborted
  {
    hide Tickets, Backward, Queue, Hand, Flight, Wire, Slotted, Books, Issued, Sessions, Fifo, Barrier;
  }

  lemma Drained(env: Env, s: State)
    requires Inv(env, s) && s.request == [] && s.inflight == map[] && s.phase.Idle?
    ensures Begun(s) == |s.hist.pushed|
    ensures forall i :: 0 <= i < |s.hist.pushed| ==>
      s.hist.pushed[i].cmd.id in s.hist.book && s.hist.book[s.hist.pushed[i].cmd.id].loc.Finished?
  {
    hide Backward, Wire, Slotted, Books, Issued, Sessions, Fifo, Barrier;
  }

  lemma DrainedWorld(env: Env, s: State)
    requires Inv(env, s) && SimInv(env, s) && s.hist.clean && !s.hist.raced
    requires s.inflight == map[] && Begun(s) == |s.hist.pushed|
    ensures World(s.ve, s.host) == After(env, Prog(s.hist), |s.hist.pushed|)
  {
    hide Inv, After, SlotSim, Values, Ordered;
    NotAborted(env, s);
    QuietWire(env, s);
    var n := |s.hist.pushed|;
    PutNone(After(env, Prog(s.hist), n).host, s.hist.stores, n, n);
  }

  lemma DrainedOk(s: State)
    requires CleanInv(s) && s.hist.clean
    ensures forall id :: id in s.hist.book && s.hist.book[id].loc.Finished? ==> s.hist.book[id].loc.out.res.status == Ok
  {
    hide Unstolen;
  }
}
