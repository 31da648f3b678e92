/** The containers of a context (Command.cpp, Command.hpp). */
module CommQueues {
  import opened Memory
  import opened Protocol
  import opened Engine

  lemma CancelMore(completion: map<nat, Result>, gone: set<nat>, id: nat)
    ensures Insert(Cancel(completion, gone), id, CANCELLED.res) == Cancel(completion, gone + {id})
  {
  }

  lemma CancelTwice(completion: map<nat, Result>, a: set<nat>, b: set<nat>)
    ensures Cancel(Cancel(completion, a), b) == Cancel(completion, a + b)
  {
  }

  lemma NothingCancelled(completion: map<nat, Result>, q: seq<Command>)
    ensures Cancel(completion, IdsOf(q[..0])) == completion
  {
  }

  lemma IdsMore(q: seq<Command>, n: nat)
    requires n < |q|
    ensures IdsOf(q[..n + 1]) == IdsOf(q[..n]) + {q[n].id}
  {
    assert q[..n + 1] == q[..n] + [q[n]];
  }

  /** The entries of a map under some keys. */
  function At(m: map<nat, Command>, keys: set<nat>): map<nat, Command> { map r | r in m && r in keys :: m[r] }

  lemma NoneCancelled(completion: map<nat, Result>, m: map<nat, Command>)
    ensures Cancel(completion, IdsAt(At(m, {}))) == completion && m - {} == m
  {
  }

  lemma AtMore(m: map<nat, Command>, keys: set<nat>, r: nat)
    requires r in m
    ensures IdsAt(At(m, keys + {r})) == IdsAt(At(m, keys)) + {m[r].id}
  {
    assert forall x :: x in At(m, keys) ==> x in At(m, keys + {r}) && At(m, keys + {r})[x] == m[x];
    assert r in At(m, keys + {r});
  }

  lemma AllDone(m: map<nat, Command>, keys: set<nat>)
    requires keys <= m.Keys && m - keys == map[]
    ensures At(m, keys) == m
  {
    assert forall r :: r in m && r !in keys ==> r in m - keys;
  }

  class CommQueue {
    var request: seq<Command>
    var inflight: map<nat, Command>
    var completion: map<nat, Result>

    constructor ()
      ensures request == [] && inflight == map[] && completion == map[]
    {
      request, inflight, completion := [], map[], map[];
    }

    method PushRequest(c: Command)
      modifies this`request
      ensures request == old(request) + [c]
    {
      request := request + [c];
    }

    method PushRequestFront(c: Command)
      modifies this`request
      ensures request == [c] + old(request)
    {
      request := [c] + request;
    }

    method TryPopRequest() returns (c: Option<Command>)
      modifies this`request
      ensures old(request) == [] ==> c == None && request == []
      ensures old(request) != [] ==> c == Some(old(request)[0]) && request == old(request)[1..]
    {
      if request == [] { return None; }
      c := Some(request[0]);
      request := request[1..];
    }

    method PushInFlight(r: nat, c: Command)
      modifies this`inflight
      ensures inflight == Insert(old(inflight), r, c)
    {
      if r !in inflight { inflight := inflight[r := c]; }
    }

    method PopInFlight(r: nat) returns (c: Option<Command>)
      modifies this`inflight
      ensures r !in old(inflight) ==> c == None && inflight == old(inflight)
      ensures r in old(inflight) ==> c == Some(old(inflight)[r]) && inflight == old(inflight) - {r}
    {
      if r !in inflight { return None; }
      c := Some(inflight[r]);
      inflight := inflight - {r};
    }

    method PushCompletion(id: nat, res: Result)
      modifies this`completion
      ensures completion == Insert(old(completion), id, res)
    {
      if id !in completion { completion := completion[id := res]; }
    }

    method PeekCompletion(id: nat) returns (res: Option<Result>)
      modifies this`completion
      ensures id !in old(completion) ==> res == None && completion == old(completion)
      ensures id in old(completion) ==> res == Some(old(completion)[id]) && completion == old(completion) - {id}
    {
      if id !in completion { return None; }
      res := Some(completion[id]);
      completion := completion - {id};
    }

    /** Drain the request queue. */
    method CancelRequests()
      modifies this`request, this`completion
      ensures request == [] && completion == Cancel(old(completion), IdsOf(old(request)))
    {
      hide Cancel, IdsOf;
      ghost var c0, q0 := completion, request;
      ghost var n: nat := 0;
      NothingCancelled(c0, q0);
      while true
        invariant n <= |q0| && request == q0[n..] && completion == Cancel(c0, IdsOf(q0[..n]))
        decreases |request|
      {
        var c := TryPopRequest();
        if c == None { break; }
        IdsMore(q0, n);
        CancelMore(c0, IdsOf(q0[..n]), c.value.id);
        PushCompletion(c.value.id, CANCELLED.res);
        n := n + 1;
      }
      assert q0[..n] == q0;
    }

    /** Drain the in-flight map, in whatever order it yields its entries. */
    method CancelInFlight()
      modifies this`inflight, this`completion
      ensures inflight == map[] && completion == Cancel(old(completion), IdsAt(old(inflight)))
    {
      hide Cancel, IdsAt, At;
      ghost var c0, f0 := completion, inflight;
      ghost var done: set<nat> := {};
      NoneCancelled(c0, f0);
      while inflight != map[]
        invariant done <= f0.Keys && inflight == f0 - done
        invariant completion == Cancel(c0, IdsAt(At(f0, done)))
        decreases |inflight|
      {
        var r :| r in inflight;
        var c := PopInFlight(r);
        AtMore(f0, done, r);
        CancelMore(c0, IdsAt(At(f0, done)), f0[r].id);
        PushCompletion(c.value.id, CANCELLED.res);
        done := done + {r};
        assert inflight == f0 - done;
      }
      AllDone(f0, done);
    }

    method CancelAll()
      modifies this
      ensures request == [] && inflight == map[]
      ensures completion == Cancel(old(completion), IdsOf(old(request)) + IdsAt(old(inflight)))
    {
      CancelTwice(completion, IdsOf(request), IdsAt(inflight));
      hide Cancel, IdsOf, IdsAt;
      CancelRequests();
      CancelInFlight();
    }

    method EmptyInFlight() returns (b: bool)
      ensures b == (inflight == map[])
    {
      b := inflight == map[];
    }

    method IsActive() returns (b: bool)
      ensures b == (inflight != map[] || request != [])
    {
      b := inflight != map[] || request != [];
    }
  }
}
