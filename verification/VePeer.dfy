/** The VE side as the code has it: memory changed in place by the message handlers (veo_urpc.c, veo_urpc_ve.c).
Each handler is proved to do what Protocol.Handle says. */
module VePeers {
  import opened Memory
  import opened Protocol

  /** The words of `stack` below `w` are copied, the rest of `buf` is as it was. */
  function Words(buf: seq<Byte>, stack: seq<Byte>, w: nat): seq<Byte>
    requires |buf| == |stack| && 8 * w <= |buf|
  {
    stack[..8 * w] + buf[8 * w..]
  }

  class VePeer {
    const env: Env
    const mem: array<Byte>

    constructor (env: Env, init: seq<Byte>)
      ensures this.env == env && fresh(mem) && mem[..] == init
    {
      this.env := env;
      mem := new Byte[|init|](i requires 0 <= i < |init| => init[i]);
    }

    /** memcpy into VE memory. */
    method Memcpy(dst: nat, data: seq<Byte>)
      requires dst + |data| <= mem.Length
      modifies mem
      ensures mem[..] == Write(old(mem[..]), dst, data)
    {
      for i := 0 to |data|
        invariant forall x :: 0 <= x < mem.Length ==>
          mem[x] == if dst <= x < dst + i then data[x - dst] else old(mem[x])
      {
        mem[dst + i] := data[i];
      }
    }

    method SendBuffHandler(dst: nat, buff: seq<Byte>) returns (reply: Reply)
      requires dst + |buff| <= mem.Length
      modifies mem
      ensures (mem[..], reply) == Handle(env, old(mem[..]), MSend(dst, buff))
    {
      Memcpy(dst, buff);
      reply := Ack;
    }

    method RecvBuffHandler(src: nat, dst: nat, size: nat) returns (reply: Reply)
      requires src + size <= mem.Length
      ensures (mem[..], reply) == Handle(env, mem[..], MRecv(src, dst, size))
    {
      reply := Data(dst, mem[src..src + size]);
    }

    /** The called function: any change of memory, and a result. */
    method Execute(fn: nat, regs: seq<Word>, top: nat) returns (result: Word)
      modifies mem
      ensures (mem[..], result) == Kernel(env, fn, regs, top, old(mem[..]))
    {
      var k := Kernel(env, fn, regs, top, mem[..]);
      for i := 0 to mem.Length
        invariant forall x :: 0 <= x < i ==> mem[x] == k.0[x]
      {
        mem[i] := k.0[i];
      }
      assert mem[..] == k.0;
      result := k.1;
    }

    /** Copy one word from the stack area to the message buffer. */
    method CopyWord(top: nat, stack: array<Byte>, i: nat)
      requires top + stack.Length <= mem.Length && stack != mem && 8 * i + 8 <= stack.Length
      modifies stack
      ensures stack[..] == old(stack[..])[..8 * i] + mem[top + 8 * i..top + 8 * i + 8] + old(stack[..])[8 * i + 8..]
    {
      for b := 0 to 8
        invariant forall x :: 0 <= x < stack.Length ==>
          stack[x] == if 8 * i <= x < 8 * i + b then mem[top + x] else old(stack[x])
      {
        stack[8 * i + b] := mem[top + 8 * i + b];
      }
    }

    /** The loop that copies the stack area back, in whole words. */
    method CopyBackWords(top: nat, stack: array<Byte>)
      requires top + stack.Length <= mem.Length && stack != mem
      modifies stack
      ensures stack[..] == CopyBack(old(stack[..]), Read(mem[..], top, stack.Length))
    {
      ghost var buf, area := stack[..], Read(mem[..], top, stack.Length);
      for i := 0 to stack.Length / 8
        invariant stack[..] == Words(buf, area, i)
      {
        CopyWord(top, stack, i);
        NextWord(buf, area, mem[..], top, i);
      }
    }

    /** call_handler for a call without stack. */
    method CallHandler(fn: nat, regs: seq<Word>) returns (reply: Reply)
      modifies mem
      ensures (mem[..], reply) == Handle(env, old(mem[..]), MCall(fn, regs))
    {
      var result := Execute(fn, regs, 0);
      reply := Value(result);
    }

    /** call_handler for URPC_CMD_CALL_STKIN, _STKOUT and _STKINOUT; `stack` is the buffer in the message. */
    method CallStackHandler(fn: nat, regs: seq<Word>, top: nat, cin: bool, cout: bool, stack: array<Byte>)
      returns (reply: Reply)
      requires top + stack.Length <= mem.Length && stack != mem
      modifies mem, stack
      ensures (mem[..], reply) == Handle(env, old(mem[..]), MCallStk(fn, regs, top, cin, cout, old(stack[..])))
    {
      hide Write, Kernel, CopyBack;
      if cin { Memcpy(top, stack[..]); }
      var result := Execute(fn, regs, top);
      if cout {
        CopyBackWords(top, stack);
        reply := Stack(result, stack[..]);
      } else {
        reply := Value(result);
      }
    }
  }

  lemma NextWord(buf: seq<Byte>, area: seq<Byte>, mem: Mem, top: nat, i: nat)
    requires |buf| == |area| && 8 * i + 8 <= |buf| && top + |area| <= |mem| && area == Read(mem, top, |area|)
    ensures var s := Words(buf, area, i);
      s[..8 * i] + mem[top + 8 * i..top + 8 * i + 8] + s[8 * i + 8..] == Words(buf, area, i + 1)
  {
  }
}
