/** What each kind of request does and returns when its turn comes, said with the functions of the environment and with
reads and writes of memory, and that in a run requests return exactly that. */
module Turns {
  import opened Memory
  import opened Protocol
  import opened Engine
  import opened EngineInv
  import opened EngineChains
  import opened Sequential

  /** Memory as a function leaves it; memories keep their size. */
  function Left(was: Mem, now: Mem): Mem { if |now| == |was| then now else was }

  /** The effect of a request in its turn.  (Calls with a stack and joins: LargeCall.) */
  lemma TurnEffect(env: Env, w: World, op: Op)
    ensures var u := SeqStep(env, w, op);
      match op
      case Send(dst, src, size, _) => u == World(Write(w.ve, dst, Read(w.host, src, size)), w.host)
      case Recv(dst, src, size, _) => u == World(w.ve, Write(w.host, dst, Read(w.ve, src, size)))
      case Generic(cmd, _) => u == World(Left(w.ve, env.generic(cmd, w.ve).0), w.host)
      case Vh(f, a, n) =>
        var b := env.vh(f, Read(w.host, a, n)).0; u == World(w.ve, if |b| == n then Write(w.host, a, b) else w.host)
      case Nop => u == w
      case Call(fn, regs, _, _, false, false, _, _, _) => u == World(Left(w.ve, env.kernel(fn, regs, 0, w.ve).0), w.host)
      case _ => true
  {
    hide Read, Write;
    if op.Vh? { Unchanged(w.host, op.addr, op.len); }
  }

  lemma Unchanged(m: Mem, a: nat, n: nat)
    ensures Write(m, a, Read(m, a, n)) == m
  {
  }

  /** The same inside a program, with the writes the application made before the next push. */
  lemma TurnInProgram(env: Env, p: Program, k: nat)
    requires k < |p.pushed|
    ensures var u := SeqStep(env, After(env, p, k), p.pushed[k].cmd.op);
      After(env, p, k + 1) == u.(host := Put(u.host, p.stores, k, k + 1))
  {
    hide SeqStep, Put;
  }

  /** What a finished request returned in a clean run that has not raced: OK, and the value of its turn. */
  lemma RequestValue(env: Env, s: State, id: nat)
    requires Reachable(env, s) && s.hist.clean && !s.hist.raced && id in s.hist.book && s.hist.book[id].loc.Finished?
    ensures s.hist.book[id].pos < |s.hist.pushed|
    ensures var w, res := After(env, Prog(s.hist), s.hist.book[id].pos), s.hist.book[id].loc.out.res;
      && res.status == Ok
      && match s.hist.book[id].cmd.op
         case Vh(f, a, n) => res.retval == env.vh(f, Read(w.host, a, n)).1
         case Nop => res.retval == 0
         case Generic(cmd, _) => res.retval == if env.acks(cmd) then 0 else env.generic(cmd, w.ve).1
         case Call(fn, regs, _, _, false, false, _, _, _) => res.retval == env.kernel(fn, regs, 0, w.ve).1
         case _ => true
  {
    hide Reachable, Run, Inv, ChainInv, CleanInv, Sim, After, Untouched, Ordered, TurnValue;
    ReachableSim(env, s);
    BookPush(env, s, id);
    DrainedOk(s);
    var op := s.hist.book[id].cmd.op;
    if HasValue(op) { ValueIs(env, After(env, Prog(s.hist), s.hist.book[id].pos), op); }
  }

  lemma ValueIs(env: Env, w: World, op: Op)
    requires HasValue(op)
    ensures match op
      case Vh(f, a, n) => TurnValue(env, w, op) == env.vh(f, Read(w.host, a, n)).1
      case Nop => TurnValue(env, w, op) == 0
      case Generic(cmd, _) => TurnValue(env, w, op) == if env.acks(cmd) then 0 else env.generic(cmd, w.ve).1
      case Call(fn, regs, _, _, false, false, _, _, _) => TurnValue(env, w, op) == env.kernel(fn, regs, 0, w.ve).1
      case _ => true
  {
  }
}
