/** A context as the code has it: an object with containers, a progress loop and submission methods
(Context.cpp, Context.hpp, AsyncTransfer.cpp).  Each method is proved to perform a run of the engine. */
module Contexts {
  import opened Memory
  import opened Protocol
  import opened Engine
  import opened EngineInv
  import opened EngineChains
  import opened CommQueues
  import opened Transfer
  import opened Marshalling
  import opened LargeCall
  import opened Submissions

  datatype Received = NoReply | Threw | Bad | Fine

  /** What a submission gives back: a request id, VEO_REQUEST_ID_INVALID, an exception out of progress, or a failed
  assertion. */
  datatype Submission = Submitted(id: nat) | Invalid | Thrown | Aborted

  /** Whether the loop goes round again, and what it returns if not. */
  datatype Round = Loop | Done(rc: Option<int>)

  datatype Sent = Nothing | Accepted | RanHere | Delayed | Again | Failed

  /** How URPC takes a message: it is on its way, try again, or an error. */
  datatype Taken = Takes | Later | Never

  /** What the code gets to hear from outside, each time it asks: how URPC takes a message, whether the receiver is
  still up, whether the progress lock is free, and whether the process on the VE is gone. */
  datatype Oracle = Oracle(submit: nat -> Taken, up: nat -> bool, free: nat -> bool, gone: nat -> bool)

  function SentAs(t: Taken): Sent { match t case Takes => Accepted case Later => Again case Never => Failed }

  /** State that no code reads: threads on their way through a submission, and history. */
  datatype Shadow = Shadow(delivered: map<nat, Recipient>, pending: map<Tid, Pend>, session: nat, hist: History)

  class Context {
    const env: Env
    const comq: CommQueue
    // the outside world: its answers, the number of send slots of the channel, and how often it was asked
    const oracle: Oracle
    const slots: nat
    var submits: nat
    var looks: nat
    var locks: nat
    var waits: nat
    var rem: set<nat>
    var seqNo: nat
    var exited: bool
    var count: nat
    // the submit lock
    var owner: Option<Tid>
    var depth: nat
    var host: Mem
    // the URPC peer
    var wire: seq<Slot>
    var served: nat
    var nextReq: nat
    var ve: Mem
    ghost var sh: Shadow

    constructor (env: Env, oracle: Oracle, slots: nat, ve: Mem, host: Mem)
      ensures this.env == env && Init(View(Idle)) && this.ve == ve && this.host == host
      ensures this.oracle == oracle && this.slots == slots
    {
      this.env, this.oracle, this.slots := env, oracle, slots;
      submits, looks, locks, waits := 0, 0, 0, 0;
      this.comq := new CommQueue();
      rem, seqNo, exited, count, owner, depth, this.host := {}, 0, false, 0, None, 0, host;
      wire, served, nextReq, this.ve := [], 0, 0, ve;
      sh := Shadow(map[], map[], 0, History([], map[], [], {}, [], true, false, false, World(ve, host), [], false));
    }

    /** The engine state this object is in, with the progress loop in phase `p`. */
    ghost function View(p: Phase): State
      reads this, comq
    {
      State(comq.request, comq.inflight, Ledger(rem, comq.completion, sh.delivered), seqNo, sh.pending,
            owner, depth, sh.session, p, wire, served, nextReq, ve, host, exited, sh.hist)
    }

    /** _peekResult. */
    method PeekResult(id: nat, ghost who: Recipient) returns (status: Status, retval: Word)
      modifies this`rem, this`sh, comq`completion
      ensures Peek(old(View(Idle).ledger), id, who) == Peeked(View(Idle).ledger, status, retval)
      ensures sh == old(sh).(delivered := sh.delivered)
    {
      if id !in rem { return Error, 0; }
      var c := comq.PeekCompletion(id);
      match c {
        case Some(res) =>
          rem := rem - {id};
          sh := sh.(delivered := sh.delivered[id := who]);
          return res.status, res.retval;
        case None => return Unfinished, 0;
      }
    }

    /** _peekResult of a request that may be VEO_REQUEST_ID_INVALID. */
    method PeekPart(id: Option<nat>, ghost who: Recipient) returns (status: Status, retval: Word)
      modifies this`rem, this`sh, comq`completion
      ensures PeekOpt(old(View(Idle).ledger), id, who) == Peeked(View(Idle).ledger, status, retval)
      ensures sh == old(sh).(delivered := sh.delivered)
    {
      if id == None { return Ok, 0; }
      status, retval := PeekResult(id.value, who);
    }

    /** The result function of a VE command. */
    method ResultFunction(cmd: Command, reply: Reply) returns (out: Outcome, bad: bool)
      modifies this`rem, this`sh, this`host, this`exited, comq`completion
      ensures OnReply(old(View(Idle).ledger), cmd, reply) == Answer(View(Idle).ledger, out, bad)
      ensures host == HostEffect(cmd.op, old(host), reply)
      ensures exited == (old(exited) || (bad && (cmd.op.Call? || cmd.op.Generic?)))
      ensures sh == old(sh).(delivered := sh.delivered)
    {
      hide Peek, Write, ApplyOuts;
      var status, retval;
      bad := false;
      match cmd.op {
        case Send(_, _, _, prev) =>
          status, retval := PeekPart(prev, ToCommand(cmd.id));
          if reply.Exc? { return Outcome(Result(Exception, TWO64 - URPC_CMD_SENDBUFF), Raised), true; }
          out := Outcome(Result(status, retval), Answered);
        case Recv(dst, _, size, prev) =>
          if !(reply.Data? && reply.dst == dst && |reply.bytes| == size) {
            return Outcome(Result(Exception, TWO64 - URPC_CMD_RECVBUFF), Raised), true;
          }
          host := Write(host, dst, reply.bytes);
          status, retval := PeekPart(prev, ToCommand(cmd.id));
          out := Outcome(Result(status, retval), Answered);
        case Call(_, _, _, _, _, _, stack, keep, outs) =>
          match reply {
            case Value(v) => out := Outcome(Result(Ok, v), Answered);
            case Stack(v, bytes) =>
              if keep { host := Write(host, stack, bytes); } else { host := ApplyOuts(host, bytes, outs); }
              out := Outcome(Result(Ok, v), Answered);
            case Exc(c) =>
              exited := true;
              return Outcome(Result(Exception, c), Raised), true;
            case _ =>
              exited := true;
              return Outcome(Result(Exception, 0), Raised), true;
          }
        case _ =>
          match reply {
            case Ack => out := Outcome(Result(Ok, 0), Answered);
            case Stack(_, _) => out := Outcome(Result(Unfinished, 0), Answered);
            case Value(v) => out := Outcome(Result(Ok, v), Answered);
            case Exc(c) =>
              exited := exited || cmd.op.Generic?;
              return Outcome(Result(Exception, c), Raised), true;
            case _ =>
              exited := exited || cmd.op.Generic?;
              return Outcome(Result(Exception, 0), Raised), true;
          }
      }
    }

    /** The submit function of a VH command. */
    method RunFunction(cmd: Command) returns (res: Result)
      requires cmd.op.IsVH()
      modifies this`rem, this`sh, this`host, comq`completion
      ensures var a := OnVH(env, old(View(Idle).ledger), old(host), cmd);
        a.ledger == View(Idle).ledger && a.res == res && host == VhEffect(env, cmd.op, old(host), a.readOk)
      ensures sh == old(sh).(delivered := sh.delivered)
    {
      match cmd.op {
        case Vh(f, a, n) =>
          var r := VhRun(env, f, Read(host, a, n));
          host := Write(host, a, r.0);
          res := Result(Ok, r.1);
        case Nop => res := Result(Ok, 0);
        case Join(write, call, read, stack, size, copyout, outs) =>
          ghost var me := ToCommand(cmd.id);
          var wstat, _ := PeekPart(write, me);
          var cstat, result := PeekPart(call, me);
          var rstat, _ := PeekPart(read, me);
          if rstat == Ok && copyout { host := ApplyOuts(host, Read(host, stack, size), outs); }
          if wstat != Ok { return Result(wstat, result); }
          if cstat != Ok { return Result(cstat, result); }
          res := Result(rstat, result);
      }
    }

    // ---- the progress loop ----

    /** The VE serves the oldest message that waits, or raises an exception in it. */
    method ServeOne(execVH: bool) returns (ghost fault: Fault)
      requires served < |wire|
      modifies this`wire, this`served, this`ve, this`sh
      ensures CanServe(old(View(Top(execVH))), fault)
      ensures View(Top(execVH)) == DoServe(env, old(View(Top(execVH))), fault)
      ensures served == old(served) + 1 && |wire| == |old(wire)|
      ensures SubmittersKept()
    {
      hide Handle, Fit, Kernel, CopyBack, Read, Write, Zeros;
      ghost var s := View(Top(execVH));
      var raises: bool, code: Word, junk: Mem := *, *, *;
      if |junk| != |ve| { junk := ve; }
      fault := if raises then Fault(code, junk) else NoFault;
      var slot := wire[served];
      var h := if raises then (junk, Exc(code)) else Handle(env, ve, slot.msg);
      wire := wire[served := slot.(reply := Some(h.1))];
      served := served + 1;
      ve := h.0;
      sh := sh.(hist := sh.hist.(clean := sh.hist.clean && !raises));
    }

    /** urpc_get_cmd: by now the VE has served some of the outstanding messages, perhaps with an exception. */
    method Poll(execVH: bool) returns (got: bool, ghost steps: seq<Step>)
      modifies this`wire, this`served, this`ve, this`sh
      ensures Run(env, old(View(Top(execVH))), steps) == Some(View(Top(execVH)))
      ensures got == CanReceive(View(Top(execVH))) && got == ReplyWaits() && RunVH !in steps
      ensures SubmittersKept()
    {
      ghost var s0 := View(Top(execVH));
      steps := [];
      NoSteps(env, s0);
      hide Run, DoServe, CanServe;
      while served < |wire|
        invariant Run(env, s0, steps) == Some(View(Top(execVH))) && RunVH !in steps
        invariant SubmittersKept()
        decreases |wire| - served
      {
        if * { break; }
        ghost var s := View(Top(execVH));
        ghost var f := ServeOne(execVH);
        ServeRuns(env, s0, steps, s, f);
        steps := steps + [Serve(f)];
      }
      got := served > 0 && |wire| > 0 && wire[0].reply.Some?;
    }

    /** What a progress step leaves to the submitting threads. */
    twostate predicate SubmittersKept()
      reads this
    {
      && sh.pending == old(sh.pending) && owner == old(owner) && depth == old(depth)
      && sh.session == old(sh.session) && seqNo == old(seqNo)
      && looks == old(looks) && locks == old(locks) && (old(exited) ==> exited)
      && sh.hist.pushed == old(sh.hist.pushed) && sh.hist.stores == old(sh.hist.stores)
    }

    /** Take the oldest reply and find its command. */
    method PopReply() returns (slot: Slot, cmd: Option<Command>)
      requires |wire| > 0 && served > 0
      modifies this`wire, this`served, comq`inflight
      ensures slot == old(wire)[0] && wire == old(wire)[1..] && served == old(served) - 1
      ensures cmd == if slot.req in old(comq.inflight) then Some(old(comq.inflight)[slot.req]) else None
      ensures comq.inflight == old(comq.inflight) - {slot.req}
      ensures |comq.inflight| <= |old(comq.inflight)| && (cmd.Some? ==> |comq.inflight| < |old(comq.inflight)|)
    {
      slot := wire[0];
      wire, served := wire[1..], served - 1;
      cmd := comq.PopInFlight(slot.req);
      if cmd.Some? { FewerKeys(old(comq.inflight), slot.req); }
    }

    /** Call the result function of the command the reply was for; `s` is the state before the reply was taken. */
    method Settle(ghost s: State, execVH: bool, cmd: Command, reply: Reply) returns (out: Outcome, bad: bool)
      requires s.phase == Top(execVH) && CanReceive(s) && s.wire[0].reply == Some(reply)
      requires s.wire[0].req in s.inflight && cmd == s.inflight[s.wire[0].req]
      requires View(Top(execVH)) ==
        s.(wire := s.wire[1..], served := s.served - 1, inflight := s.inflight - {s.wire[0].req})
      modifies this`rem, this`sh, this`host, this`exited, comq`completion
      ensures View(Settled(execVH, cmd, out, !cmd.op.Nowait(), bad)) == DoReceive(s)
      ensures SubmittersKept()
    {
      hide OnReply, HostEffect, SetLoc;
      out, bad := ResultFunction(cmd, reply);
      sh := sh.(hist := DoReceive(s).hist);
    }

    /** pushCompletion, skipped for the answer to a nowait command. */
    method Store(ghost execVH: bool, cmd: Command, out: Outcome, keep: bool, bad: bool)
      modifies this`sh, comq`completion
      ensures View(if bad then Failing else Top(execVH)) == DoComplete(old(View(Settled(execVH, cmd, out, keep, bad))))
      ensures SubmittersKept()
    {
      ghost var s := View(Settled(execVH, cmd, out, keep, bad));
      if keep { comq.PushCompletion(cmd.id, out.res); }
      sh := sh.(hist := DoComplete(s).hist);
    }

    /** Settle a command and store its result. */
    method SettleAndStore(ghost s: State, execVH: bool, cmd: Command, reply: Reply) returns (bad: bool)
      requires s.phase == Top(execVH) && CanReceive(s) && s.wire[0].reply == Some(reply)
      requires s.wire[0].req in s.inflight && cmd == s.inflight[s.wire[0].req]
      requires View(Top(execVH)) ==
        s.(wire := s.wire[1..], served := s.served - 1, inflight := s.inflight - {s.wire[0].req})
      modifies this`rem, this`sh, this`host, this`exited, comq`completion
      ensures Run(env, s, [Receive, Complete]) == Some(View(if bad then Failing else Top(execVH)))
      ensures SubmittersKept()
    {
      hide Run, DoReceive, DoComplete;
      var out;
      out, bad := Settle(s, execVH, cmd, reply);
      Store(execVH, cmd, out, !cmd.op.Nowait(), bad);
      ReceiveRuns(env, s);
    }

    /** One round of receiving. */
    method TakeReply(execVH: bool) returns (k: Received, ghost steps: seq<Step>)
      requires CanReceive(View(Top(execVH)))
      modifies this`wire, this`served, this`rem, this`sh, this`host, this`exited, comq`inflight, comq`completion
      ensures Run(env, old(View(Top(execVH))), steps) ==
        Some(View(match k case Threw => Idle case Bad => Failing case _ => Top(execVH)))
      ensures SubmittersKept() && comq.request == old(comq.request)
      ensures |comq.inflight| <= |old(comq.inflight)| && (k != Threw ==> |comq.inflight| < |old(comq.inflight)|)
      ensures k != NoReply && (k == Threw ==> sh.hist.threw) && RunVH !in steps
    {
      hide Run;
      ghost var s := View(Top(execVH));
      var slot, cmd := PopReply();
      match cmd {
        case None =>
          sh := sh.(hist := sh.hist.(threw := true));
          k, steps := Threw, [Receive];
          NoCommand(env, s);
        case Some(c) =>
          var bad := SettleAndStore(s, execVH, c, slot.reply.value);
          k, steps := if bad then Bad else Fine, [Receive, Complete];
      }
    }

    /** tryPopRequest. */
    method PopOne(execVH: bool) returns (cmd: Option<Command>)
      modifies this`sh, comq`request
      ensures cmd == None <==> old(comq.request) == []
      ensures cmd == None ==> View(Top(execVH)) == old(View(Top(execVH)))
      ensures cmd.Some? ==> old(comq.request) == [cmd.value] + comq.request
      ensures cmd.Some? ==> View(Popped(execVH, cmd.value)) == DoPop(old(View(Top(execVH))))
      ensures SubmittersKept()
    {
      ghost var s := View(Top(execVH));
      cmd := comq.TryPopRequest();
      if cmd.Some? { sh := sh.(hist := DoPop(s).hist); }
    }

    /** pushRequestFront of the command just popped. */
    method PutBackFront(ghost execVH: bool, cmd: Command)
      modifies this`sh, comq`request
      ensures View(Idle) == DoPutBack(old(View(Popped(execVH, cmd))))
      ensures comq.request == [cmd] + old(comq.request)
      ensures SubmittersKept()
    {
      ghost var s := View(Popped(execVH, cmd));
      comq.PushRequestFront(cmd);
      sh := sh.(hist := DoPutBack(s).hist);
    }

    /** A VH command runs in the thread that makes progress. */
    method RunHere(cmd: Command) returns (res: Result)
      requires CanRunVH(View(Popped(true, cmd)))
      modifies this`rem, this`sh, this`host, comq`completion
      ensures View(Settled(true, cmd, Outcome(res, Ran), true, false)) == DoRunVH(env, old(View(Popped(true, cmd))))
      ensures SubmittersKept()
    {
      hide OnVH, VhEffect;
      ghost var s := View(Popped(true, cmd));
      res := RunFunction(cmd);
      sh := sh.(hist := DoRunVH(env, s).hist);
    }

    /** URPC took the message: the command is in flight. */
    method Post(ghost execVH: bool, cmd: Command)
      requires CanSubmit(View(Popped(execVH, cmd))) && Flight(comq.inflight, nextReq, sh.hist.book)
      modifies this`sh, this`wire, this`nextReq, comq`inflight
      ensures View(Top(execVH)) == DoSubmit(env, old(View(Popped(execVH, cmd))))
      ensures |comq.inflight| <= old(|comq.inflight|) + 1
      ensures SubmittersKept()
    {
      hide MsgOf, InTheClear;
      ghost var s := View(Popped(execVH, cmd));
      wire := wire + [Slot(nextReq, cmd.id, MsgOf(env, cmd.op, host), None)];
      comq.PushInFlight(nextReq, cmd);
      nextReq := nextReq + 1;
      sh := sh.(hist := DoSubmit(env, s).hist);
    }

    /** The submit function of a VE command: URPC takes the message, asks to try again, or fails for good. */
    method SubmitFunction(execVH: bool, cmd: Command) returns (k: Sent)
      requires CanSubmit(View(Popped(execVH, cmd))) && Flight(comq.inflight, nextReq, sh.hist.book)
      modifies this`sh, this`wire, this`nextReq, this`submits, comq`inflight
      ensures submits == old(submits) + 1 && k == SentAs(oracle.submit(old(submits)))
      ensures k != Accepted ==> comq.inflight == old(comq.inflight) && wire == old(wire)
      ensures k == Accepted ==> View(Top(execVH)) == DoSubmit(env, old(View(Popped(execVH, cmd))))
      ensures k == Accepted ==> |comq.inflight| <= old(|comq.inflight|) + 1
      ensures k == Again ==> View(Popped(execVH, cmd)) == old(View(Popped(execVH, cmd)))
      ensures k == Failed ==>
        View(Settled(execVH, cmd, Outcome(Result(Error, TWO64 - 1), Refused), true, false))
          == DoRefuse(old(View(Popped(execVH, cmd))))
      ensures SubmittersKept()
    {
      hide DoSubmit, Flight;
      ghost var s := View(Popped(execVH, cmd));
      var taken := oracle.submit(submits);
      submits := submits + 1;
      k := SentAs(taken);
      if k == Accepted {
        Post(execVH, cmd);
      } else if k == Failed {
        sh := sh.(hist := DoRefuse(s).hist);
      }
    }

    /** cancelAll and the move to VEO_STATE_EXIT. */
    method GiveUp(ghost p: Phase)
      modifies this`sh, this`exited, comq
      ensures View(Idle) == DoCancelAll(old(View(p)))
      ensures comq.request == [] && comq.inflight == map[] && exited
      ensures SubmittersKept()
    {
      hide Cancel;
      ghost var s := View(p);
      exited := true;
      comq.CancelAll();
      sh := sh.(hist := DoCancelAll(s).hist);
    }

    /** A popped VH command runs if nothing is in flight and the caller may run it; otherwise it waits. */
    method HandleVH(execVH: bool, cmd: Command) returns (k: Sent, ghost steps: seq<Step>)
      requires cmd.op.IsVH()
      modifies this`rem, this`sh, this`host, comq`request, comq`completion
      ensures k == if comq.inflight == map[] && execVH then RanHere else Delayed
      ensures k == RanHere ==> comq.request == old(comq.request)
      ensures k == Delayed ==> comq.request == [cmd] + old(comq.request)
      ensures Run(env, old(View(Popped(execVH, cmd))), steps) == Some(View(if k == Delayed then Idle else Top(execVH)))
      ensures RunVH in steps <==> k == RanHere
      ensures SubmittersKept()
    {
      hide Run, DoPutBack, DoRunVH, DoComplete;
      ghost var s := View(Popped(execVH, cmd));
      var empty := comq.EmptyInFlight();
      if empty && execVH {
        var res := RunHere(cmd);
        Store(execVH, cmd, Outcome(res, Ran), true, false);
        k, steps := RanHere, [RunVH, Complete];
        VHRuns(env, s);
      } else {
        PutBackFront(execVH, cmd);
        k, steps := Delayed, [PutBack];
        PutBackRuns(env, s);
      }
    }

    /** A popped VE command is sent, put back, or completed with an error. */
    method HandleVE(execVH: bool, cmd: Command) returns (k: Sent, ghost steps: seq<Step>)
      requires !cmd.op.IsVH() && Flight(comq.inflight, nextReq, sh.hist.book)
      modifies this`sh, this`wire, this`nextReq, this`submits, comq
      ensures submits == old(submits) + 1 && k == SentAs(oracle.submit(old(submits)))
      ensures k != Accepted ==> wire == old(wire)
      ensures comq.request == if k == Again then [cmd] + old(comq.request) else old(comq.request)
      ensures |comq.inflight| <= old(|comq.inflight|) + if k == Accepted then 1 else 0
      ensures k != Accepted ==> comq.inflight == old(comq.inflight)
      ensures Run(env, old(View(Popped(execVH, cmd))), steps) == Some(View(if k == Again then Idle else Top(execVH)))
      ensures RunVH !in steps
      ensures SubmittersKept()
    {
      hide Run, DoPutBack, DoSubmit, DoRefuse, DoComplete, MsgOf;
      ghost var s := View(Popped(execVH, cmd));
      k := SubmitFunction(execVH, cmd);
      match k {
        case Accepted =>
          steps := [Submit];
          SubmitRuns(env, s);
        case Again =>
          PutBackFront(execVH, cmd);
          steps := [PutBack];
          PutBackRuns(env, s);
        case Failed =>
          Store(execVH, cmd, Outcome(Result(Error, TWO64 - 1), Refused), true, false);
          steps := [Refuse, Complete];
          SubmitRuns(env, s);
      }
    }

    /** One round of submitting: pop a command and run it, send it, or put it back. */
    method TryCommand(execVH: bool) returns (k: Sent, ghost steps: seq<Step>)
      requires Inv(env, View(Top(execVH)))
      modifies this`rem, this`sh, this`host, this`wire, this`nextReq, this`submits, comq
      ensures Run(env, old(View(Top(execVH))), steps) == Some(View(if k.Delayed? || k.Again? then Idle else Top(execVH)))
      ensures if k == Accepted || k == Again || k == Failed
        then submits == old(submits) + 1 && k == SentAs(oracle.submit(old(submits)))
        else submits == old(submits)
      ensures k != Accepted ==> wire == old(wire)
      ensures !execVH ==> RunVH !in steps
      ensures k == Nothing <==> old(comq.request) == []
      ensures k == Nothing ==> comq.request == []
      ensures k == Delayed ==> comq.request != [] && comq.request[0].op.IsVH() && (comq.inflight != map[] || !execVH)
      ensures k == Accepted || k == RanHere || k == Failed ==> Work() < old(Work())
      ensures k == Nothing || k == Delayed || k == Again ==> Work() == old(Work())
      ensures SubmittersKept()
    {
      hide Inv, DoPop, Flight, Run;
      ghost var s := View(Top(execVH));
      var popped := PopOne(execVH);
      if popped == None {
        NoSteps(env, s);
        return Nothing, [];
      }
      PopRuns(env, s);
      PopFlight(env, s);
      if popped.value.op.IsVH() {
        k, steps := HandleVH(execVH, popped.value);
      } else {
        k, steps := HandleVE(execVH, popped.value);
      }
      RunConcat(env, s, [Pop], steps);
      steps := [Pop] + steps;
    }

    /** Every hundredth idle round the loop looks whether the process on the VE is still there. */
    method PeerLost() returns (dead: bool)
      modifies this`count, this`waits
      ensures dead <==> old(count) % 100 == 0 && oracle.gone(old(waits))
      ensures count == if dead then old(count) else old(count) + 1
    {
      dead := false;
      if count % 100 == 0 {
        dead := oracle.gone(waits);
        waits := waits + 1;
      }
      if !dead { count := count + 1; }
    }

    /** A reply has arrived and was not taken yet. */
    predicate ReplyWaits()
      reads this
    {
      served > 0 && |wire| > 0 && wire[0].reply.Some?
    }

    /** The upper half of a round: receive a reply if there is one; a negative result function ends everything. */
    method Receiving(execVH: bool) returns (k: Received, ghost steps: seq<Step>)
      modifies this`wire, this`served, this`ve, this`rem, this`sh, this`host, this`exited, comq
      ensures (k == NoReply ==> !ReplyWaits()) && RunVH !in steps
      ensures Run(env, old(View(Top(execVH))), steps) == Some(View(if k == Threw || k == Bad then Idle else Top(execVH)))
      ensures k == Fine ==> Work() < old(Work())
      ensures k == NoReply || k == Threw || k == Bad ==> Work() <= old(Work())
      ensures k == Bad ==> comq.request == [] && comq.inflight == map[] && exited
      ensures k == Threw ==> sh.hist.threw
      ensures SubmittersKept()
    {
      hide Run, CanReceive, DoCancelAll;
      ghost var s0, more := View(Top(execVH)), [];
      var got;
      got, steps := Poll(execVH);
      if !got { return NoReply, steps; }
      k, more := TakeReply(execVH);
      steps := Extend(env, s0, steps, more);
      if k == Bad {
        ghost var s := View(Failing);
        GiveUp(Failing);
        OneStep(env, s, Abort);
        steps := Extend(env, s0, steps, [Abort]);
      }
    }

    /** The end of a round that moved nothing. */
    method Resting(execVH: bool) returns (rc: int, ghost steps: seq<Step>)
      modifies this`sh, this`exited, this`count, this`waits, comq
      ensures rc == if old(count) % 100 == 0 && oracle.gone(old(waits)) then -1 else 0
      ensures rc == -1 ==> comq.request == [] && comq.inflight == map[] && exited
      ensures rc == 0 ==> comq.request == old(comq.request)
      ensures RunVH !in steps
      ensures Work() <= old(Work())
      ensures Run(env, old(View(Top(execVH))), steps) == Some(View(Idle))
      ensures SubmittersKept()
    {
      hide Run, DoCancelAll;
      ghost var s := View(Top(execVH));
      var dead := PeerLost();
      if dead {
        GiveUp(Top(execVH));
        DeathRuns(env, s);
        rc, steps := -1, [PeerDeath];
      } else {
        LeaveRuns(env, s);
        rc, steps := 0, [Leave];
      }
    }

    /** The end of a round in which no command could be sent for good. */
    method Unsent(execVH: bool, ghost s0: State, ghost before: seq<Step>, k: Sent, ghost since: nat)
      returns (rc: int, ghost steps: seq<Step>)
      requires k == Nothing || k == Again || k == Failed
      requires Run(env, s0, before) == Some(View(if k == Again then Idle else Top(execVH)))
      requires !ReplyWaits() && (k == Nothing ==> comq.request == [])
      requires k != Nothing ==> since < submits && oracle.submit(submits - 1) != Takes
      modifies this`sh, this`exited, this`count, this`waits, comq
      ensures Run(env, s0, steps) == Some(View(Idle)) && Work() <= old(Work())
      ensures EndsWith(Some(rc), execVH, since) && (RunVH in steps ==> RunVH in before)
      ensures SubmittersKept()
    {
      hide Run;
      ghost var more := [];
      steps := before;
      if k == Again {
        EnterRuns(env, View(Idle), execVH);
        steps := Extend(env, s0, steps, [Enter(execVH)]);
      }
      rc, more := Resting(execVH);
      steps := Extend(env, s0, steps, more);
    }

    /** The lower half of a round, entered when there was no reply. */
    method Sending(execVH: bool) returns (next: Round, ghost steps: seq<Step>)
      requires Inv(env, View(Top(execVH))) && !ReplyWaits()
      modifies this, comq
      ensures next != Done(None) && submits >= old(submits)
      ensures Run(env, old(View(Top(execVH))), steps) == Some(View(if next.Done? then Idle else Top(execVH)))
      ensures Work() <= old(Work()) && (next == Loop ==> Work() < old(Work()))
      ensures next.Done? ==> EndsWith(next.rc, execVH, old(submits))
      ensures SubmittersKept() && (!execVH ==> RunVH !in steps)
    {
      hide Inv, Run;
      ghost var s0 := View(Top(execVH));
      if |wire| >= slots {
        LeaveRuns(env, s0);
        return Done(Some(0)), [Leave];
      }
      var k, rc;
      k, steps := TryCommand(execVH);
      if k == Accepted || k == RanHere { return Loop, steps; }
      if k == Delayed { return Done(Some(1)), steps; }
      rc, steps := Unsent(execVH, s0, steps, k, old(submits));
      next := Done(Some(rc));
    }

    /** What the return code of the loop says: an exception; or no reply waits and either nothing more can be sent (no
    slot is free, the queue is empty, or URPC did not take the last message, of those since it was asked `since` times),
    or a VH command is delayed; or everything was given up. */
    ghost predicate EndsWith(rc: Option<int>, execVH: bool, since: nat)
      reads this, comq
    {
      match rc
      case None => sh.hist.threw
      case Some(x) =>
        || (x == 0 && !ReplyWaits()
            && (|wire| >= slots || comq.request == [] || (since < submits && oracle.submit(submits - 1) != Takes)))
        || (x == 1 && !ReplyWaits() && |wire| < slots
            && comq.request != [] && comq.request[0].op.IsVH() && (comq.inflight != map[] || !execVH))
        || (x == -1 && comq.request == [] && comq.inflight == map[] && exited)
    }

    /** _progress_nolock.  It performs a run of the engine and ends outside the loop; each of the `rounds` that moved
    something used up some of the work there was.  `None` is the exception thrown for a reply without a command. */
    method ProgressNolock(execVH: bool) returns (rc: Option<int>, ghost steps: seq<Step>, ghost rounds: nat)
      requires Reachable(env, View(Idle))
      modifies this, comq
      ensures Reachable(env, View(Idle)) && Run(env, old(View(Idle)), steps) == Some(View(Idle))
      ensures EndsWith(rc, execVH, old(submits)) && rounds + Work() <= old(Work())
      ensures rc.Some? && rc.value >= 0 && |wire| < slots && (forall k :: old(submits) <= k ==> oracle.submit(k) == Takes) ==>
        comq.request == [] || comq.request[0].op.IsVH()
      ensures SubmittersKept() && submits >= old(submits) && (!execVH ==> RunVH !in steps)
    {
      hide Inv, Run, Reachable;
      ghost var s0, more := View(Idle), [];
      ReachableInv(env, s0);
      EnterRuns(env, s0, execVH);
      steps, rounds := [Enter(execVH)], 0;
      var next := Loop;
      while next == Loop
        invariant Run(env, s0, steps) == Some(View(if next == Loop then Top(execVH) else Idle))
        invariant next.Done? ==> EndsWith(next.rc, execVH, old(submits))
        invariant SubmittersKept() && rounds + Work() <= old(Work()) && submits >= old(submits)
        invariant !execVH ==> RunVH !in steps
        decreases if next == Loop then Work() + 1 else 0
      {
        var k;
        k, more := Receiving(execVH);
        steps := Extend(env, s0, steps, more);
        match k {
          case Fine => rounds := rounds + 1;
          case Threw => next := Done(None);
          case Bad => next := Done(Some(-1));
          case NoReply =>
            RunKeeps(env, s0, steps);
            next, more := Sending(execVH);
            steps := Extend(env, s0, steps, more);
            if next == Loop { rounds := rounds + 1; }
        }
      }
      rc := next.rc;
      ReachableMore(env, s0, steps);
    }

    /** What bounds a progress loop that no other thread feeds. */
    ghost function Work(): nat
      reads comq
    {
      2 * |comq.request| + |comq.inflight|
    }

    // ---- submitting ----

    predicate Alive()
      reads this
    {
      !exited && oracle.up(looks)
    }

    /** A submission was turned down: the context has given up, or since look `since` the receiver was not up. */
    ghost predicate Denied(since: nat)
      reads this
    {
      exited || exists k :: since <= k < looks && !oracle.up(k)
    }

    /** Since message `since` the loop has run to its end in this thread, without VH commands. */
    ghost predicate CaughtUp(since: nat)
      reads this, comq
    {
      exists x :: EndsWith(Some(x), false, since)
    }

    /** Answers were only asked for, and giving up is for good. */
    twostate predicate Onward()
      reads this
    {
      looks >= old(looks) && locks >= old(locks) && (old(exited) ==> exited)
    }

    /** Progress was called: requests are in flight, which the progress thread sees to, or this thread tried the progress
    lock since it had done so `since` times. */
    ghost predicate Nudged(since: nat)
      reads this, comq
    {
      comq.inflight != map[] || locks > since
    }

    /** What a run of the loop by a submitting thread leaves alone. */
    twostate predicate LooksKept()
      reads this
    {
      looks == old(looks) && (old(exited) ==> exited)
    }

    /** is_alive: the context has not given up and the receiver's flags, which may change at any time, say it is up. */
    method IsAlive() returns (b: bool)
      modifies this`looks
      ensures b == old(Alive()) && looks == old(looks) + if exited then 0 else 1
    {
      if exited { return false; }
      b := oracle.up(looks);
      looks := looks + 1;
    }

    /** The application writes to host memory. */
    method HostStore(addr: nat, bytes: seq<Byte>)
      requires Reachable(env, View(Idle)) && addr + |bytes| <= |host|
      modifies this`host, this`sh
      ensures View(Idle) == DoHostWrite(env, old(View(Idle)), addr, bytes) && Reachable(env, View(Idle))
    {
      hide Reachable, Unused;
      ghost var s := View(Idle);
      host := Write(host, addr, bytes);
      sh := sh.(hist := DoHostWrite(env, s, addr, bytes).hist);
      OneStep(env, s, HostWrite(addr, bytes));
      ReachableMore(env, s, [HostWrite(addr, bytes)]);
    }

    /** Run the loop, without VH commands, unless another thread does. */
    method TryProgress() returns (threw: bool, ghost steps: seq<Step>)
      requires Reachable(env, View(Idle))
      modifies this, comq
      ensures Reachable(env, View(Idle)) && Does(env, old(View(Idle)), View(Idle), steps, [])
      ensures LooksKept() && locks == old(locks) + 1 && (threw ==> sh.hist.threw)
      ensures if oracle.free(old(locks)) then threw || CaughtUp(old(submits)) else !threw && View(Idle) == old(View(Idle))
    {
      hide Reachable, Run, Does;
      ghost var s := View(Idle);
      var free := oracle.free(locks);
      locks := locks + 1;
      if !free {
        DoesNothing(env, s);
        return false, [];
      }
      var rc;
      ghost var rounds;
      rc, steps, rounds := ProgressNolock(false);
      threw := rc == None;
      ProgressDoes(env, s, View(Idle), steps);
    }

    /** progress: with requests in flight it is left to the progress thread. */
    method Progress() returns (threw: bool, ghost steps: seq<Step>)
      requires Reachable(env, View(Idle))
      modifies this, comq
      ensures Reachable(env, View(Idle)) && Does(env, old(View(Idle)), View(Idle), steps, [])
      ensures LooksKept() && (threw ==> sh.hist.threw)
      ensures locks == old(locks) + if old(comq.inflight) == map[] then 1 else 0
      ensures old(comq.inflight) != map[] ==> !threw && View(Idle) == old(View(Idle))
      ensures old(comq.inflight) == map[] && oracle.free(old(locks)) ==> threw || CaughtUp(old(submits))
    {
      hide Reachable, Does, CaughtUp;
      var empty := comq.EmptyInFlight();
      if !empty {
        DoesNothing(env, View(Idle));
        return false, [];
      }
      threw, steps := TryProgress();
    }

    /** progressExec, for as many calls of the loop as `limit` allows: the VE may take any number of them.  When nothing
    is active any more, every command that was pushed is finished. */
    method ProgressExec(limit: nat) returns (done: bool, threw: bool, ghost steps: seq<Step>)
      requires Reachable(env, View(Idle))
      modifies this, comq
      ensures Reachable(env, View(Idle)) && Run(env, old(View(Idle)), steps) == Some(View(Idle)) && SubmittersKept()
      ensures done ==> forall id :: id in sh.hist.book ==> sh.hist.book[id].loc.Finished?
      ensures threw ==> sh.hist.threw
      ensures !done && !threw && limit > 0 ==> exists x :: EndsWith(Some(x), true, old(submits))
    {
      hide Reachable, Run;
      ghost var s := View(Idle);
      NoSteps(env, s);
      done, threw, steps := false, false, [];
      var n := limit;
      while n > 0
        invariant Reachable(env, View(Idle)) && Run(env, s, steps) == Some(View(Idle)) && SubmittersKept()
        invariant !done && n <= limit && submits >= old(submits)
        invariant n < limit ==> exists x :: EndsWith(Some(x), true, old(submits))
      {
        var active := comq.IsActive();
        if !active {
          InactiveMeansDone(env, View(Idle));
          return true, false, steps;
        }
        ghost var more, rounds := [], 0;
        var rc;
        rc, more, rounds := ProgressNolock(true);
        steps := Extend(env, s, steps, more);
        if rc == None { return false, true, steps; }
        n := n - 1;
      }
    }

    /** issueRequestID and pushRequest under the submit lock. */
    method Enqueue(tid: Tid, op: Op) returns (id: nat, ghost steps: seq<Step>)
      requires Reachable(env, View(Idle)) && MaySubmit(View(Idle), tid)
      requires RefsOk(op, sh.hist.book) && OpOk(env, op, |ve|, |host|)
      modifies this`rem, this`seqNo, this`sh, comq`request
      ensures Reachable(env, View(Idle)) && id == old(seqNo)
      ensures Does(env, old(View(Idle)), View(Idle), steps, OnePush(Some(id), op, tid, sh.session))
    {
      hide Reachable, Does, RefsOk, OpOk;
      ghost var s := View(Idle);
      id := seqNo;
      seqNo := seqNo + 1;
      if !op.Nowait() { rem := rem + {id}; }
      comq.PushRequest(Command(id, op));
      sh := sh.(session := Enqueued(s, tid, op).session, hist := Enqueued(s, tid, op).hist);
      steps := EnqueueSteps(tid, op);
      EnqueueDoes(env, s, tid, op);
      DoesFacts(env, s, View(Idle), steps, OnePush(Some(id), op, tid, sh.session), tid);
    }

    /** Enqueue unless the context is dead. */
    method TryEnqueue(tid: Tid, op: Op) returns (id: Option<nat>, ghost steps: seq<Step>)
      requires Reachable(env, View(Idle)) && MaySubmit(View(Idle), tid)
      requires RefsOk(op, sh.hist.book) && OpOk(env, op, |ve|, |host|)
      modifies this`rem, this`seqNo, this`sh, this`looks, comq`request
      ensures Reachable(env, View(Idle))
      ensures Does(env, old(View(Idle)), View(Idle), steps, OnePush(id, op, tid, sh.session))
      ensures id.Some? <==> old(Alive())
      ensures id == None ==> View(Idle) == old(View(Idle))
      ensures looks == old(looks) + if exited then 0 else 1
    {
      hide Reachable, Does, RefsOk, OpOk;
      var alive := IsAlive();
      if !alive {
        DoesNothing(env, View(Idle));
        return None, [];
      }
      var x;
      x, steps := Enqueue(tid, op);
      id := Some(x);
    }

    /** Push the request for the next fragment; `block` holds those pushed since `s0`. */
    method NextFragment(ghost s0: State, ghost before: seq<Step>, tid: Tid, send: bool, dst: nat, src: nat, ghost ps: seq<Piece>,
                        p: Piece, prev: Option<nat>, ghost block: seq<Push>)
      returns (id: Option<nat>, ghost steps: seq<Step>, ghost more: seq<Push>)
      requires Reachable(env, View(Idle)) && Does(env, s0, View(Idle), before, block) && MaySubmit(s0, tid)
      requires Linked(block, tid, send, dst, src, ps) && |block| < |ps| && ps[|block|] == p && prev == LastId(block)
      requires OpOk(env, FragOp(send, dst, src, p, prev), |s0.ve|, |s0.host|)
      modifies this`rem, this`seqNo, this`sh, this`looks, comq`request
      ensures Reachable(env, View(Idle)) && Does(env, s0, View(Idle), steps, more) && Linked(more, tid, send, dst, src, ps)
      ensures id.Some? <==> old(Alive())
      ensures looks == old(looks) + if exited then 0 else 1
      ensures id == None ==> more == block
      ensures id.Some? ==> |more| == |block| + 1 && LastId(more) == id
    {
      hide Reachable, Does, Linked, MaySubmit;
      ghost var s, op := View(Idle), FragOp(send, dst, src, p, prev);
      DoesFacts(env, s0, s, before, block, tid);
      LinkRef(block, tid, send, dst, src, ps, sh.hist.book);
      id, steps := TryEnqueue(tid, FragOp(send, dst, src, p, prev));
      more := block + OnePush(id, op, tid, sh.session);
      DoesMore(env, s0, s, View(Idle), before, steps, block, OnePush(id, op, tid, sh.session));
      steps := before + steps;
      if id.Some? { LinkMore(block, tid, send, dst, src, ps, id.value, sh.session); } else { assert more == block; }
    }

    /** The loop of asyncReadMem and asyncWriteMem: one request per fragment, each naming the one before it;
    after the first one, one call of progress. */
    method Fragments(tid: Tid, send: bool, dst: nat, src: nat, size: nat, frag: nat)
      returns (r: Submission, ghost steps: seq<Step>, ghost block: seq<Push>)
      requires Reachable(env, View(Idle)) && MaySubmit(View(Idle), tid)
      requires size > 0 && frag > 0 && OpOk(env, FragOp(send, dst, src, Piece(0, size), None), |ve|, |host|)
      modifies this, comq
      ensures Reachable(env, View(Idle)) && Does(env, old(View(Idle)), View(Idle), steps, block)
      ensures Linked(block, tid, send, dst, src, Pieces(0, size, frag)) && r != Aborted && (r == Thrown ==> sh.hist.threw)
      ensures Onward() && (r == Invalid ==> |block| < |Pieces(0, size, frag)| && Denied(old(looks)))
      ensures r.Submitted? ==> |block| == |Pieces(0, size, frag)| && LastId(block) == Some(r.id) && Nudged(old(locks))
    {
      hide Reachable, Does, Linked, Pieces, OpOk, MaySubmit, FragOp;
      ghost var s0, ps := View(Idle), Pieces(0, size, frag);
      var off, prev, first := 0, None, true;
      steps, block := [], [];
      DoesNothing(env, s0);
      NoLinks(tid, send, dst, src, ps);
      while off < size
        invariant Reachable(env, View(Idle)) && Does(env, s0, View(Idle), steps, block)
        invariant Linked(block, tid, send, dst, src, ps)
        invariant off <= size && |block| <= |ps| && ps[|block|..] == Pieces(off, size - off, frag)
        invariant prev == LastId(block) && (off > 0 ==> block != [])
        invariant Onward() && (first <==> off == 0) && (!first ==> Nudged(old(locks)))
        decreases size - off
      {
        var psz := if size - off <= frag then size - off else frag;
        NextPiece(ps, |block|, off, size - off, frag);
        FragInside(env, send, dst, src, size, Piece(off, psz), prev, |s0.ve|, |s0.host|);
        var id;
        id, steps, block := NextFragment(s0, steps, tid, send, dst, src, ps, Piece(off, psz), prev, block);
        if id == None { return Invalid, steps, block; }
        prev := id;
        off := off + psz;
        if first {
          first := false;
          ghost var t, more := View(Idle), [];
          var threw;
          threw, more := Progress();
          DoesThen(env, s0, t, View(Idle), steps, more, block);
          steps := steps + more;
          if threw { return Thrown, steps, block; }
        }
      }
      NoPieces(off, frag);
      r := Submitted(prev.value);
    }

    /** asyncReadMem and asyncWriteMem. */
    method AsyncMem(tid: Tid, cfg: Settings, send: bool, dst: nat, src: nat, size: nat)
      returns (r: Submission, ghost steps: seq<Step>, ghost block: seq<Push>)
      requires Reachable(env, View(Idle)) && MaySubmit(View(Idle), tid)
      requires size > 0 ==> FragSize(env, cfg, send, size) > 0
      requires OpOk(env, FragOp(send, dst, src, Piece(0, size), None), |ve|, |host|)
      modifies this, comq
      ensures Reachable(env, View(Idle)) && Does(env, old(View(Idle)), View(Idle), steps, block) && r != Aborted
      ensures Onward() && (r == Thrown ==> sh.hist.threw) && (r == Invalid ==> Denied(old(looks)))
      ensures !old(Alive()) ==> r == Invalid && block == []
      ensures size == 0 ==>
        (r == Invalid && block == []) || (r.Submitted? && block == OnePush(Some(r.id), Nop, tid, sh.session))
      ensures size > 0 ==>
        var ps := Pieces(0, size, FragSize(env, cfg, send, size));
        && Linked(block, tid, send, dst, src, ps)
        && (r == Invalid ==> |block| < |ps|)
        && (r.Submitted? ==> |block| == |ps| && LastId(block) == Some(r.id) && Nudged(old(locks)))
    {
      hide Reachable, Does, Linked;
      var alive := IsAlive();
      if !alive {
        DoesNothing(env, View(Idle));
        if size > 0 { NoLinks(tid, send, dst, src, Pieces(0, size, FragSize(env, cfg, send, size))); }
        return Invalid, [], [];
      }
      if size == 0 {
        var id;
        id, steps := Enqueue(tid, Nop);
        return Submitted(id), steps, OnePush(Some(id), Nop, tid, sh.session);
      }
      r, steps, block := Fragments(tid, send, dst, src, size, FragSize(env, cfg, send, size));
    }

    /** Enqueue unless the context is dead, then make progress: genericAsyncReq, and simpleCallAsync but for
    its address check. */
    method Request(tid: Tid, op: Op) returns (r: Submission, ghost steps: seq<Step>, ghost block: seq<Push>)
      requires Reachable(env, View(Idle)) && MaySubmit(View(Idle), tid)
      requires RefsOk(op, sh.hist.book) && OpOk(env, op, |ve|, |host|)
      modifies this, comq
      ensures Reachable(env, View(Idle)) && Does(env, old(View(Idle)), View(Idle), steps, block) && r != Aborted
      ensures Onward() && (r == Thrown ==> sh.hist.threw) && (r == Invalid <==> !old(Alive())) && (r == Invalid ==> Denied(old(looks)))
      ensures r == Invalid ==> block == []
      ensures r.Submitted? ==> Nudged(old(locks)) && exists session :: block == OnePush(Some(r.id), op, tid, session)
      ensures r.Submitted? && old(comq.inflight) == map[] && oracle.free(old(locks)) ==> CaughtUp(old(submits))
    {
      hide Reachable, Does, RefsOk, OpOk, CaughtUp;
      ghost var s0, more := View(Idle), [];
      var id, threw;
      id, steps := TryEnqueue(tid, op);
      block := OnePush(id, op, tid, sh.session);
      if id == None { return Invalid, steps, []; }
      ghost var s1 := View(Idle);
      threw, more := Progress();
      DoesThen(env, s0, s1, View(Idle), steps, more, block);
      steps := steps + more;
      r := if threw then Thrown else Submitted(id.value);
    }

    /** simpleCallAsync. */
    method SimpleCallAsync(tid: Tid, call: Op) returns (r: Submission, ghost steps: seq<Step>, ghost block: seq<Push>)
      requires Reachable(env, View(Idle)) && MaySubmit(View(Idle), tid)
      requires call.Call? && OpOk(env, call, |ve|, |host|)
      modifies this, comq
      ensures Reachable(env, View(Idle)) && Does(env, old(View(Idle)), View(Idle), steps, block) && r != Aborted
      ensures Onward() && (r == Thrown ==> sh.hist.threw) && (r == Invalid <==> call.fn == 0 || !old(Alive()))
      ensures r == Invalid ==> block == [] && (call.fn == 0 || Denied(old(looks)))
      ensures r.Submitted? ==> Nudged(old(locks)) && exists session :: block == OnePush(Some(r.id), call, tid, session)
      ensures r.Submitted? && old(comq.inflight) == map[] && oracle.free(old(locks)) ==> CaughtUp(old(submits))
    {
      hide Reachable, Does, CaughtUp;
      if call.fn == 0 {
        DoesNothing(env, View(Idle));
        return Invalid, [], [];
      }
      r, steps, block := Request(tid, call);
    }

    /** callVHAsync; function 0 is the null pointer.  No progress here, the progress thread is woken up. */
    method CallVHAsync(tid: Tid, func: nat, addr: nat, len: nat) returns (id: Option<nat>, ghost steps: seq<Step>)
      requires Reachable(env, View(Idle)) && MaySubmit(View(Idle), tid) && addr + len <= |host|
      modifies this, comq
      ensures Reachable(env, View(Idle))
      ensures Does(env, old(View(Idle)), View(Idle), steps, OnePush(id, Vh(func, addr, len), tid, sh.session))
      ensures id.Some? <==> func != 0 && old(Alive())
      ensures id == None ==> View(Idle) == old(View(Idle))
    {
      hide Reachable, Does;
      if func == 0 {
        DoesNothing(env, View(Idle));
        return None, [];
      }
      id, steps := TryEnqueue(tid, Vh(func, addr, len));
    }

    method LockSubmit(tid: Tid)
      requires Reachable(env, View(Idle)) && MaySubmit(View(Idle), tid)
      modifies this`owner, this`depth, this`sh
      ensures View(Idle) == DoLock(old(View(Idle)), tid)
      ensures Reachable(env, View(Idle)) && MaySubmit(View(Idle), tid)
    {
      hide Reachable;
      ghost var s := View(Idle);
      sh := sh.(session := if depth == 0 then sh.session + 1 else sh.session);
      owner, depth := Some(tid), depth + 1;
      OneStep(env, s, Lock(tid));
      ReachableMore(env, s, [Lock(tid)]);
    }

    method UnlockSubmit(tid: Tid)
      requires Reachable(env, View(Idle)) && CanUnlock(View(Idle), tid)
      modifies this`owner, this`depth
      ensures View(Idle) == DoUnlock(old(View(Idle))) && Reachable(env, View(Idle))
    {
      hide Reachable;
      ghost var s := View(Idle);
      owner, depth := if depth == 1 then None else owner, depth - 1;
      OneStep(env, s, Unlock(tid));
      ReachableMore(env, s, [Unlock(tid)]);
    }

    /** The extra transfer of a split call; `None` if it was not accepted. */
    method Part(tid: Tid, cfg: Settings, wanted: bool, send: bool, dst: nat, src: nat, size: nat)
      returns (threw: bool, id: Option<nat>, ghost steps: seq<Step>, ghost block: seq<Push>)
      requires Reachable(env, View(Idle)) && MaySubmit(View(Idle), tid)
      requires size > 0 && FragSize(env, cfg, send, size) > 0
      requires OpOk(env, FragOp(send, dst, src, Piece(0, size), None), |ve|, |host|)
      modifies this, comq
      ensures Reachable(env, View(Idle)) && Does(env, old(View(Idle)), View(Idle), steps, block)
      ensures Onward() && (threw ==> sh.hist.threw)
      ensures !threw ==> PartOf(env, cfg, wanted, tid, send, dst, src, size, id, block)
      ensures !threw && wanted && id == None ==> Denied(old(looks))
    {
      hide Reachable, Does, Linked;
      if !wanted {
        DoesNothing(env, View(Idle));
        return false, None, [], [];
      }
      var r;
      r, steps, block := AsyncMem(tid, cfg, send, dst, src, size);
      threw := r.Thrown?;
      id := if r.Submitted? then Some(r.id) else None;
    }

    /** The transfer to the VE and the call of a split call. */
    method FirstParts(tid: Tid, c: CallSpec, send: Settings)
      returns (threw: bool, write: Option<nat>, call: Option<nat>, ghost steps: seq<Step>, ghost wb: seq<Push>, ghost cb: seq<Push>)
      requires Reachable(env, View(Idle)) && MaySubmit(View(Idle), tid)
      requires var head := HeadLimit(env, |c.regs|);
        && head < c.size && OpOk(env, HeadOp(c), |ve|, |host|) && FragSize(env, send, true, c.size - head) > 0
        && OpOk(env, FragOp(true, c.top + head, c.stack + head, Piece(0, c.size - head), None), |ve|, |host|)
      modifies this, comq
      ensures Reachable(env, View(Idle)) && Does(env, old(View(Idle)), View(Idle), steps, wb + cb)
      ensures var head := HeadLimit(env, |c.regs|); !threw ==>
        && PartOf(env, send, c.cin, tid, true, c.top + head, c.stack + head, c.size - head, write, wb)
        && CallPart(c, tid, call, cb)
      ensures Onward() && (threw ==> sh.hist.threw)
      ensures !threw && ((c.cin && write == None) || call == None) ==> c.fn == 0 || Denied(old(looks))
    {
      hide Reachable, Does, PartOf, MaySubmit, OpOk, HeadLimit, FragSize;
      ghost var s0, more := View(Idle), [];
      var head := HeadLimit(env, |c.regs|);
      var rc;
      call, cb := None, [];
      threw, write, steps, wb := Part(tid, send, c.cin, true, c.top + head, c.stack + head, c.size - head);
      DoesFacts(env, s0, View(Idle), steps, wb, tid);
      assert wb + [] == wb;
      if threw { return; }
      ghost var s1 := View(Idle);
      rc, more, cb := SimpleCallAsync(tid, HeadOp(c));
      DoesMore(env, s0, s1, View(Idle), steps, more, wb, cb);
      steps := steps + more;
      threw := rc.Thrown?;
      call := if rc.Submitted? then Some(rc.id) else None;
    }

    /** The join of a split call, and progress. */
    method JoinParts(ghost s0: State, ghost before: seq<Step>, tid: Tid, c: CallSpec, ghost send: Settings, ghost recv: Settings,
                     write: Option<nat>, call: Option<nat>, read: Option<nat>, ghost wb: seq<Push>, ghost cb: seq<Push>, ghost rb: seq<Push>)
      returns (r: Submission, ghost steps: seq<Step>, ghost block: seq<Push>)
      requires Reachable(env, View(Idle)) && MaySubmit(View(Idle), tid) && Does(env, s0, View(Idle), before, wb + cb + rb)
      requires Parts(env, c, send, recv, tid, write, call, read, wb, cb, rb)
      requires OpOk(env, Join(write, call, read, c.stack, c.size, c.cout, c.outs), |ve|, |host|)
      modifies this, comq
      ensures Reachable(env, View(Idle)) && Does(env, s0, View(Idle), steps, block)
      ensures LooksKept() && locks >= old(locks) && (r.Submitted? || (r.Thrown? && sh.hist.threw))
      ensures r.Submitted? ==> Nudged(old(locks))
      ensures CallBlock(env, c, send, recv, tid, block, |wb|, |cb|) && (r.Submitted? ==> LastId(block) == Some(r.id))
      ensures block != [] && block[|block| - 1].cmd.op == Join(write, call, read, c.stack, c.size, c.cout, c.outs)
    {
      hide Reachable, Does, Parts, MaySubmit, OpOk, RefsOk;
      ghost var s3, more := View(Idle), [];
      var join, threw, id := Join(write, call, read, c.stack, c.size, c.cout, c.outs), false, 0;
      JoinRefs(env, s0, s3, before, c, send, recv, tid, write, call, read, wb, cb, rb);
      id, more := Enqueue(tid, join);
      ghost var jb := OnePush(Some(id), join, tid, sh.session);
      DoesMore(env, s0, s3, View(Idle), before, more, wb + cb + rb, jb);
      steps := before + more;
      block := wb + cb + rb + jb;
      BuildsBlock(env, c, send, recv, tid, write, call, read, id, sh.session, wb, cb, rb);
      ghost var s4 := View(Idle);
      threw, more := Progress();
      DoesThen(env, s0, s4, View(Idle), steps, more, block);
      steps := steps + more;
      r := if threw then Thrown else Submitted(id);
    }

    /** The parts of a split call and its join, pushed while the submit lock is held. */
    method SplitParts(tid: Tid, c: CallSpec, send: Settings, recv: Settings)
      returns (r: Submission, ghost steps: seq<Step>, ghost block: seq<Push>, ghost nw: nat, ghost nc: nat)
      requires Reachable(env, View(Idle)) && MaySubmit(View(Idle), tid)
      requires SplitCase(env, c, send, recv, |ve|, |host|)
      modifies this, comq
      ensures Reachable(env, View(Idle)) && Does(env, old(View(Idle)), View(Idle), steps, block)
      ensures Onward() && (r.Submitted? || (r.Thrown? && sh.hist.threw))
      ensures r.Submitted? ==> CallBlock(env, c, send, recv, tid, block, nw, nc) && LastId(block) == Some(r.id)
      ensures r.Submitted? ==> block != [] && block[|block| - 1].cmd.op.Join? && Nudged(old(locks))
      ensures r.Submitted? ==> AllAccepted(c, block[|block| - 1].cmd.op) || c.fn == 0 || Denied(old(looks))
    {
      hide Reachable, Does, PartOf, CallBlock, MaySubmit, SplitCase, OpOk, RefsOk, HeadLimit;
      ghost var s0, more := View(Idle), [];
      nw, nc := 0, 0;
      var head := HeadLimit(env, |c.regs|);
      PartsInside(env, c, send, recv, |ve|, |host|);
      var threw, write, call, read;
      ghost var wb: seq<Push>, cb: seq<Push>, rb: seq<Push>;
      threw, write, call, steps, wb, cb := FirstParts(tid, c, send);
      DoesFacts(env, s0, View(Idle), steps, wb + cb, tid);
      if threw { return Thrown, steps, wb + cb, 0, 0; }
      ghost var s2 := View(Idle);
      threw, read, more, rb := Part(tid, recv, c.cout, false, c.stack + head, c.top + head, c.size - head);
      DoesMore(env, s0, s2, View(Idle), steps, more, wb + cb, rb);
      steps := steps + more;
      DoesFacts(env, s0, View(Idle), steps, wb + cb + rb, tid);
      if threw { return Thrown, steps, wb + cb + rb, 0, 0; }
      r, steps, block := JoinParts(s0, steps, tid, c, send, recv, write, call, read, wb, cb, rb);
      nw, nc := |wb|, |cb|;
    }

    /** doCallAsync.  A call that fits, or copies nothing, is one request; any other is a block of requests
    pushed in one holding of the submit lock. */
    method DoCallAsync(tid: Tid, c: CallSpec, sp: Word, send: Settings, recv: Settings)
      returns (r: Submission, ghost steps: seq<Step>, ghost block: seq<Push>, ghost nw: nat, ghost nc: nat)
      requires Reachable(env, View(Idle)) && MaySubmit(View(Idle), tid)
      requires c.top < TWO64 && (SamePage(sp, c.top) ==> CallInside(env, c, |ve|, |host|))
      requires FragsOk(env, c, send, recv)
      modifies this, comq
      ensures Reachable(env, View(Idle)) && Does(env, old(View(Idle)), View(Idle), steps, block) && r != Aborted
      ensures r == Invalid <==> c.fn == 0 || !SamePage(sp, c.top) || (FitsOne(env, c) && !old(Alive()))
      ensures r.Submitted? ==> Nudged(old(locks))
      ensures r == Invalid ==> block == []
      ensures Onward() && (r == Thrown ==> sh.hist.threw)
      ensures r.Submitted? && FitsOne(env, c) ==> exists session :: block == OnePush(Some(r.id), SimpleOp(c), tid, session)
      ensures r.Submitted? && !FitsOne(env, c) ==>
        && CallBlock(env, c, send, recv, tid, block, nw, nc) && LastId(block) == Some(r.id)
        && block != [] && block[|block| - 1].cmd.op.Join?
        && (AllAccepted(c, block[|block| - 1].cmd.op) || Denied(old(looks)))
        && (forall i :: 0 <= i < |block| ==> block[i].tid == tid && block[i].session == block[0].session)
    {
      hide Reachable, Does, CallBlock, MaySubmit;
      nw, nc := 0, 0;
      ghost var s0 := View(Idle);
      if c.fn == 0 || !SamePage(sp, c.top) {
        DoesNothing(env, s0);
        return Invalid, [], [], 0, 0;
      }
      if FitsOne(env, c) {
        r, steps, block := SimpleCallAsync(tid, SimpleOp(c));
        return;
      }
      LockSubmit(tid);
      r, steps, block, nw, nc := SplitParts(tid, c, send, recv);
      LockedDoes(env, s0, View(Idle), tid, steps, block);
      UnlockSubmit(tid);
      steps := [Lock(tid)] + steps + [Unlock(tid)];
    }

    /** The arguments are set up and their image is put into the stack buffer. */
    method Prepare(addr: nat, args: CallArgs, sp: Word, stack: nat, ghost send: Settings, ghost recv: Settings)
      returns (ok: bool, c: CallSpec)
      requires Reachable(env, View(Idle))
      requires CanCall(env, View(Idle), args.arguments, CallFor(addr, args.arguments, sp, stack), sp, send, recv)
      modifies this`host, this`sh, args
      ensures Reachable(env, View(Idle)) && args.arguments == old(args.arguments)
      ensures ok <==> Off(args.arguments, |args.arguments|) < TWO31
      ensures !ok ==> View(Idle) == old(View(Idle))
      ensures ok ==>
        && c == CallFor(addr, args.arguments, sp, stack) && c.fn == addr && c.stack == stack && c.top < TWO64
        && Stacked(env, old(View(Idle)), View(Idle), c, args.arguments) && sh.pending == old(sh.pending)
        && (SamePage(sp, c.top) ==> CallInside(env, c, |ve|, |host|)) && FragsOk(env, c, send, recv)
    {
      hide Reachable, Image, Unused, FragsOk;
      ghost var s := View(Idle);
      ok := args.Setup(W64(sp - RESERVED_STACK_SIZE), host);
      c := CallSpec(addr, [], 0, 0, false, false, stack, []);
      if !ok { return; }
      PreparedCall(env, s, args.arguments, CallFor(addr, args.arguments, sp, stack), sp, send, recv);
      OneStep(env, s, HostWrite(stack, args.stackBuf));
      HostStore(stack, args.stackBuf);
      var regs := args.GetRegVal();
      var outs := args.CopyOuts();
      c := CallSpec(addr, regs, args.stackTop, args.stackSize, args.copiedIn, args.copiedOut, stack, outs);
    }

    /** callAsync: set up the arguments, put their image into the stack buffer, which is new memory at `stack`,
    and submit the call.  `mid` is the state with the image in place. */
    method CallAsync(tid: Tid, addr: nat, args: CallArgs, sp: Word, stack: nat, send: Settings, recv: Settings)
      returns (r: Submission, ghost mid: State, ghost steps: seq<Step>, ghost block: seq<Push>, ghost nw: nat, ghost nc: nat)
      requires Reachable(env, View(Idle)) && MaySubmit(View(Idle), tid)
      requires CanCall(env, View(Idle), args.arguments, CallFor(addr, args.arguments, sp, stack), sp, send, recv)
      modifies this, comq, args
      ensures Reachable(env, View(Idle)) && args.arguments == old(args.arguments)
      ensures Does(env, mid, View(Idle), steps, block)
      ensures mid == old(View(Idle)) || Stacked(env, old(View(Idle)), mid, CallFor(addr, args.arguments, sp, stack), args.arguments)
      ensures addr == 0 || !old(Alive()) ==> r == Invalid && View(Idle) == old(View(Idle))
      ensures addr != 0 && old(Alive()) ==> (r == Aborted <==> Off(args.arguments, |args.arguments|) >= TWO31)
      ensures r == Aborted ==> View(Idle) == old(View(Idle))
      ensures addr != 0 && old(Alive()) && r != Aborted ==>
        var c := CallFor(addr, args.arguments, sp, stack);
        r == Invalid <==> !SamePage(sp, c.top) || (FitsOne(env, c) && !oracle.up(old(looks) + 1))
      ensures r == Invalid ==> block == []
      ensures Onward() && (r == Thrown ==> sh.hist.threw)
      ensures r.Submitted? ==> Nudged(old(locks))
      ensures r.Submitted? ==>
        var c := CallFor(addr, args.arguments, sp, stack);
        && Called(env, old(View(Idle)), mid, View(Idle), steps, c, args.arguments, sp, send, recv, tid, r.id, block, nw, nc)
        && (!FitsOne(env, c) ==>
              && block != [] && block[|block| - 1].cmd.op.Join?
              && (AllAccepted(c, block[|block| - 1].cmd.op) || Denied(old(looks)))
              && forall i :: 0 <= i < |block| ==> block[i].tid == tid && block[i].session == block[0].session)
    {
      hide Reachable, Does, CallBlock, Stacked, CallFor, CanCall, CallInside, FragsOk;
      mid, steps, block, nw, nc := View(Idle), [], [], 0, 0;
      DoesNothing(env, mid);
      var alive := IsAlive();
      if addr == 0 || !alive { return Invalid, mid, [], [], 0, 0; }
      var ok, c := Prepare(addr, args, sp, stack, send, recv);
      if !ok { return Aborted, mid, [], [], 0, 0; }
      mid := View(Idle);
      r, steps, block, nw, nc := DoCallAsync(tid, c, sp, send, recv);
    }

    /** callPeekResult: progress if nobody else does, then collect. */
    method CallPeekResult(tid: Tid, id: nat)
      returns (threw: bool, status: Status, retval: Word, ghost mid: State, ghost steps: seq<Step>)
      requires Reachable(env, View(Idle))
      modifies this, comq
      ensures Reachable(env, mid) && Does(env, old(View(Idle)), mid, steps, []) && Reachable(env, View(Idle))
      ensures threw ==> View(Idle) == mid && sh.hist.threw
      ensures !threw && oracle.free(old(locks)) ==> CaughtUp(old(submits))
      ensures !threw ==> View(Idle) == DoCollect(mid, tid, id)
      ensures !threw ==> Peek(mid.ledger, id, ToUser(tid)) == Peeked(View(Idle).ledger, status, retval)
      ensures !threw ==> Run(env, mid, [Collect(tid, id)]) == Some(View(Idle))
    {
      hide Reachable, Does, Run, Peek;
      threw, steps := TryProgress();
      mid := View(Idle);
      if threw { return true, Error, 0, mid, steps; }
      status, retval := PeekResult(id, ToUser(tid));
      sh := sh.(hist := DoCollect(mid, tid, id).hist);
      CollectRuns(env, mid, tid, id);
      ReachableMore(env, mid, [Collect(tid, id)]);
    }
  }

  /** Outside the progress loop a context is inactive exactly if every command that was pushed is finished. */
  lemma InactiveMeansDone(env: Env, s: State)
    requires Reachable(env, s) && s.phase.Idle?
    ensures s.inflight == map[] && s.request == [] <==> forall id :: id in s.hist.book ==> s.hist.book[id].loc.Finished?
  {
    hide Reachable, Run;
    ReachableInv(env, s);
    OutstandingIs(env, s);
    hide Inv;
    if s.request != [] { assert s.request[0].id in IdsOf(s.request); }
    if r :| r in s.inflight { assert s.inflight[r].id in IdsAt(s.inflight); }
  }

  lemma NoSteps(env: Env, s: State)
    ensures Run(env, s, []) == Some(s)
  {
  }

  lemma ServeRuns(env: Env, s0: State, steps: seq<Step>, s: State, f: Fault)
    requires Run(env, s0, steps) == Some(s) && CanServe(s, f)
    ensures Run(env, s0, steps + [Serve(f)]) == Some(DoServe(env, s, f))
  {
    hide Run, DoServe;
    RunSnoc(env, s0, steps, Serve(f));
  }

  lemma CollectRuns(env: Env, s: State, tid: Tid, id: nat)
    ensures Run(env, s, [Collect(tid, id)]) == Some(DoCollect(s, tid, id))
  {
    OneStep(env, s, Collect(tid, id));
  }

  lemma EnterRuns(env: Env, s: State, execVH: bool)
    requires s.phase.Idle?
    ensures Run(env, s, [Enter(execVH)]) == Some(s.(phase := Top(execVH)))
  {
    OneStep(env, s, Enter(execVH));
  }

  lemma LeaveRuns(env: Env, s: State)
    requires s.phase.Top?
    ensures Run(env, s, [Leave]) == Some(s.(phase := Idle))
  {
    OneStep(env, s, Leave);
  }

  lemma DeathRuns(env: Env, s: State)
    requires s.phase.Top?
    ensures Run(env, s, [PeerDeath]) == Some(DoCancelAll(s))
  {
    OneStep(env, s, PeerDeath);
  }

  lemma NoCommand(env: Env, s: State)
    requires CanReceive(s) && s.wire[0].req !in s.inflight
    ensures Run(env, s, [Receive]) == Some(s.(phase := Idle, wire := s.wire[1..], served := s.served - 1,
      inflight := s.inflight - {s.wire[0].req}, hist := s.hist.(threw := true)))
  {
    assert s.inflight - {s.wire[0].req} == s.inflight;
    OneStep(env, s, Receive);
  }

  lemma ReceiveRuns(env: Env, s: State)
    requires CanReceive(s) && s.wire[0].req in s.inflight
    ensures DoReceive(s).phase.Settled? && Run(env, s, [Receive, Complete]) == Some(DoComplete(DoReceive(s)))
  {
    hide DoComplete, OnReply, HostEffect;
    TwoSteps(env, s, Receive, Complete);
  }

  lemma FewerKeys(m: map<nat, Command>, r: nat)
    requires r in m
    ensures |m - {r}| < |m|
  {
    assert m.Keys == (m - {r}).Keys + {r};
  }

  lemma PopFlight(env: Env, s: State)
    requires Inv(env, s) && CanPop(s)
    ensures Flight(s.inflight, s.nextReq, DoPop(s).hist.book)
  {
    hide Tickets, Backward, Queue, Hand, Wire, Slotted, Books, Issued, Sessions, Fifo, Barrier;
    HeadQueued(env, s);
    MovedFlight(s.inflight, s.nextReq, s.hist.book, s.request[0].id);
  }

  lemma MovedFlight(inflight: map<nat, Command>, nextReq: nat, book: Book, id: nat)
    requires Flight(inflight, nextReq, book) && id in book && book[id].loc.Queued?
    ensures Flight(inflight, nextReq, SetLoc(book, id, Held))
  {
  }

  lemma PopRuns(env: Env, s: State)
    requires CanPop(s)
    ensures Run(env, s, [Pop]) == Some(DoPop(s))
  {
    OneStep(env, s, Pop);
  }

  lemma PutBackRuns(env: Env, s: State)
    requires CanPutBack(s)
    ensures Run(env, s, [PutBack]) == Some(DoPutBack(s))
  {
    OneStep(env, s, PutBack);
  }

  lemma SubmitRuns(env: Env, s: State)
    requires CanSubmit(s)
    ensures Run(env, s, [Submit]) == Some(DoSubmit(env, s))
    ensures Run(env, s, [Refuse, Complete]) == Some(DoComplete(DoRefuse(s)))
  {
    hide DoSubmit, DoComplete;
    OneStep(env, s, Submit);
    TwoSteps(env, s, Refuse, Complete);
  }

  lemma VHRuns(env: Env, s: State)
    requires CanRunVH(s)
    ensures Run(env, s, [RunVH, Complete]) == Some(DoComplete(DoRunVH(env, s)))
  {
    hide DoComplete, OnVH, VhEffect;
    TwoSteps(env, s, RunVH, Complete);
  }
}
