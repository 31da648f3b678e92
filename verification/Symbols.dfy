/** Libraries on the VE, symbol lookup and the symbol cache of a process handle (ProcHandle.cpp, veo_urpc.c). */
module Symbols {
  import opened Memory

  const VEO_SYMNAME_LEN_MAX: nat := 255

  type Handle = nat
  type Table = seq<(string, nat)>

  /** A library opened on the VE: what dlsym finds in it, and how often it was opened. */
  datatype Library = Library(name: string, syms: map<string, nat>, opens: nat)

  /** The VE side: open libraries by handle, and the static symbol table, if any. */
  datatype VE = VE(libs: map<Handle, Library>, statics: Table)

  // ---- the resolver ----

  /** First entry for a name in the static table. */
  function StaticSym(t: Table, name: string): Option<nat> {
    if t == [] then None else if t[0].0 == name then Some(t[0].1) else StaticSym(t[1..], name)
  }

  function LibSym(ve: VE, h: Handle, name: string): nat {
    if h != 0 && h in ve.libs && name in ve.libs[h].syms then ve.libs[h].syms[name] else 0
  }

  /** What the VE answers when it is asked: a static symbol wins over the library. */
  function Resolve(ve: VE, h: Handle, name: string): nat {
    match StaticSym(ve.statics, name) case Some(a) => a case None => LibSym(ve, h, name)
  }

  /** The first static entry for a name is the answer, whatever library is asked. */
  lemma {:induction false} FirstStaticWins(ve: VE, h: Handle, name: string, k: nat)
    requires k < |ve.statics| && ve.statics[k].0 == name && forall i :: 0 <= i < k ==> ve.statics[i].0 != name
    ensures Resolve(ve, h, name) == ve.statics[k].1
  {
    FirstStatic(ve.statics, name, k);
  }

  lemma {:induction false} FirstStatic(t: Table, name: string, k: nat)
    requires k < |t| && t[k].0 == name && forall i :: 0 <= i < k ==> t[i].0 != name
    ensures StaticSym(t, name) == Some(t[k].1)
  {
    if k > 0 { FirstStatic(t[1..], name, k - 1); }
  }

  /** Without a static entry it is the symbol of the open library with that handle, or 0. */
  lemma {:induction false} NoStaticEntry(ve: VE, h: Handle, name: string)
    requires forall i :: 0 <= i < |ve.statics| ==> ve.statics[i].0 != name
    ensures h != 0 && h in ve.libs && name in ve.libs[h].syms ==> Resolve(ve, h, name) == ve.libs[h].syms[name]
    ensures h == 0 || h !in ve.libs || name !in ve.libs[h].syms ==> Resolve(ve, h, name) == 0
  {
    NoStatic(ve.statics, name);
  }

  lemma {:induction false} NoStatic(t: Table, name: string)
    requires forall i :: 0 <= i < |t| ==> t[i].0 != name
    ensures StaticSym(t, name) == None
  {
    if t != [] { NoStatic(t[1..], name); }
  }

  /** getsym_handler. */
  method GetSymHandler(ve: VE, h: Handle, name: string) returns (addr: nat)
    ensures addr == Resolve(ve, h, name)
  {
    addr := 0;
    if h != 0 && h in ve.libs && name in ve.libs[h].syms { addr := ve.libs[h].syms[name]; }
    var k := 0;
    while k < |ve.statics|
      invariant k <= |ve.statics| && addr == LibSym(ve, h, name)
      invariant StaticSym(ve.statics, name) == StaticSym(ve.statics[k..], name)
    {
      if ve.statics[k].0 == name {
        return ve.statics[k].1;
      }
      assert ve.statics[k..][1..] == ve.statics[k + 1..];
      k := k + 1;
    }
  }

  /** dlopen: an open library gets its handle again, any other some handle that is not in use. */
  predicate CanOpen(ve: VE, lib: Library, h: Handle) {
    && h != 0
    && (h in ve.libs ==> ve.libs[h].name == lib.name)
    && (h !in ve.libs ==> forall g :: g in ve.libs ==> ve.libs[g].name != lib.name)
  }

  function Open(ve: VE, lib: Library, h: Handle): VE {
    ve.(libs := ve.libs[h := if h in ve.libs then ve.libs[h].(opens := ve.libs[h].opens + 1) else lib.(opens := 1)])
  }

  /** dlclose: the last close removes the library, and its handle may be used again. */
  function Close(ve: VE, h: Handle): VE {
    if h !in ve.libs then ve
    else if ve.libs[h].opens > 1 then ve.(libs := ve.libs[h := ve.libs[h].(opens := ve.libs[h].opens - 1)])
    else ve.(libs := ve.libs - {h})
  }

  // ---- requests of the application ----

  /** `ok` says whether the request to the VE comes through; `h` in Load is the handle dlopen chooses. */
  datatype Request =
    | Load(lib: Library, h: Handle, ok: bool)
    | Unload(h: Handle, ok: bool)
    | GetSym(h: Handle, name: string, ok: bool)

  datatype Answer = Value(v: int) | NameTooLong

  /** The VE after a request. */
  function Effect(ve: VE, r: Request): VE {
    match r
    case Load(lib, h, ok) => if ok && |lib.name| <= VEO_SYMNAME_LEN_MAX then Open(ve, lib, h) else ve
    case Unload(h, ok) => if ok then Close(ve, h) else ve
    case GetSym(_, _, _) => ve
  }

  function Effects(ve: VE, rs: seq<Request>): VE {
    if rs == [] then ve else Effect(Effects(ve, rs[..|rs| - 1]), rs[|rs| - 1])
  }

  /** A load that reaches dlopen. */
  predicate Loads(r: Request, h: Handle) { r.Load? && r.h == h && r.ok && |r.lib.name| <= VEO_SYMNAME_LEN_MAX }

  /** How often the library with a handle is open after a run, counting loads and unloads. */
  function Count(rs: seq<Request>, h: Handle): nat {
    if rs == [] then 0
    else
      var n, r := Count(rs[..|rs| - 1], h), rs[|rs| - 1];
      if Loads(r, h) then n + 1 else if r == Unload(h, true) && n > 0 then n - 1 else n
  }

  /** The symbols behind a handle: those of the library that was loaded when it was last free. */
  function SymbolsOf(rs: seq<Request>, h: Handle): map<string, nat> {
    if rs == [] then map[]
    else
      var front, r := rs[..|rs| - 1], rs[|rs| - 1];
      if Loads(r, h) && Count(front, h) == 0 then r.lib.syms else SymbolsOf(front, h)
  }

  /** A library stays as long as it was loaded more often than unloaded, and a handle that is used again has the
  symbols of the new library. */
  lemma {:induction false} LibraryIs(statics: Table, rs: seq<Request>, h: Handle)
    ensures var ve := Effects(VE(map[], statics), rs);
      && ve.statics == statics && (h in ve.libs <==> Count(rs, h) > 0)
      && (h in ve.libs ==> ve.libs[h].opens == Count(rs, h) && ve.libs[h].syms == SymbolsOf(rs, h))
  {
    if rs != [] { LibraryIs(statics, rs[..|rs| - 1], h); }
  }

  /** dlopen behaves at every load of a run. */
  ghost predicate PossibleRun(ve: VE, rs: seq<Request>) {
    forall k :: 0 <= k < |rs| && rs[k].Load? ==> CanOpen(Effects(ve, rs[..k]), rs[k].lib, rs[k].h)
  }

  /** The answer without a cache.  If a lookup cannot reach the VE, the application gets 0 or, from the cache,
  the right address all the same. */
  predicate Agrees(a: Answer, ve: VE, r: Request) {
    match r
    case Load(lib, h, ok) => a == if |lib.name| > 255 then NameTooLong else Value(if ok then h else 0)
    case Unload(h, ok) => a == Value(if ok && h in ve.libs then 0 else -1)
    case GetSym(h, name, ok) =>
      if |name| > 255 then a == NameTooLong
      else a == Value(Resolve(ve, h, name)) || (!ok && a == Value(0))
  }

  // ---- the cache ----

  type Cache = map<(Handle, string), nat>

  /** Whatever the cache holds is what the VE would answer now. */
  ghost predicate Coherent(cache: Cache, ve: VE) {
    forall k :: k in cache ==> cache[k] == Resolve(ve, k.0, k.1) != 0
  }

  /** Opening a library, under a new handle or one used before, leaves every cached answer right. */
  lemma OpenKeeps(cache: Cache, ve: VE, lib: Library, h: Handle)
    requires Coherent(cache, ve) && CanOpen(ve, lib, h)
    ensures Coherent(cache, Open(ve, lib, h))
  {
  }

  /** So does closing one whose names were dropped from the cache first. */
  lemma CloseKeeps(cache: Cache, ve: VE, h: Handle)
    requires Coherent(cache, ve) && forall k :: k in cache ==> k.0 != h
    ensures Coherent(cache, Close(ve, h))
  {
  }

  /** If the names are not dropped, a handle used again gives a stale answer. */
  lemma DropIsNeeded()
    ensures exists cache, ve, lib, h ::
      Coherent(cache, ve) && CanOpen(Close(ve, h), lib, h) && !Coherent(cache, Open(Close(ve, h), lib, h))
  {
    var ve := VE(map[1 := Library("a", map["f" := 10], 1)], []);
    var lib := Library("b", map["f" := 20], 0);
    var cache: Cache := map[(1, "f") := 10];
    assert Resolve(ve, 1, "f") == 10 && Resolve(Open(Close(ve, 1), lib, 1), 1, "f") == 20;
    assert (1, "f") in cache;
    assert Coherent(cache, ve) && CanOpen(Close(ve, 1), lib, 1) && !Coherent(cache, Open(Close(ve, 1), lib, 1));
  }

  class ProcSymbols {
    var cache: Cache
    // the peer
    var ve: VE

    ghost predicate Valid()
      reads this
    {
      Coherent(cache, ve)
    }

    constructor (ve: VE)
      ensures Valid() && this.ve == ve
    {
      cache, this.ve := map[], ve;
    }

    method LoadLibrary(lib: Library, h: Handle, ok: bool) returns (a: Answer)
      requires Valid() && CanOpen(ve, lib, h)
      modifies this`ve
      ensures Valid() && ve == Effect(old(ve), Load(lib, h, ok)) && Agrees(a, old(ve), Load(lib, h, ok))
    {
      if |lib.name| > VEO_SYMNAME_LEN_MAX { return NameTooLong; }
      OpenKeeps(cache, ve, lib, h);
      if ok { ve := Open(ve, lib, h); }
      a := Value(if ok then h else 0);
    }

    /** Remove all cached names of a library: collect the keys, then erase them. */
    method DropNames(h: Handle)
      modifies this`cache
      ensures cache == map k | k in old(cache) && k.0 != h :: old(cache)[k]
    {
      var todo, vec := cache.Keys, [];
      while todo != {}
        invariant todo <= cache.Keys && cache == old(cache)
        invariant forall k :: k in vec <==> k in cache && k !in todo && k.0 == h
      {
        var k :| k in todo;
        if k.0 == h { vec := vec + [k]; }
        todo := todo - {k};
      }
      for i := 0 to |vec|
        invariant forall k :: k in cache <==> k in old(cache) && k !in vec[..i]
        invariant forall k :: k in cache ==> cache[k] == old(cache)[k]
      {
        cache := cache - {vec[i]};
      }
      assert vec[..|vec|] == vec;
    }

    method UnloadLibrary(h: Handle, ok: bool) returns (a: Answer)
      requires Valid()
      modifies this
      ensures Valid() && ve == Effect(old(ve), Unload(h, ok)) && Agrees(a, old(ve), Unload(h, ok))
    {
      DropNames(h);
      CloseKeeps(cache, ve, h);
      a := Value(if ok && h in ve.libs then 0 else -1);
      if ok { ve := Close(ve, h); }
    }

    method GetSym(h: Handle, name: string, ok: bool) returns (a: Answer)
      requires Valid()
      modifies this`cache
      ensures Valid() && Agrees(a, ve, Request.GetSym(h, name, ok))
    {
      if |name| > VEO_SYMNAME_LEN_MAX { return NameTooLong; }
      if (h, name) in cache { return Value(cache[(h, name)]); }
      var addr := 0;
      if ok { addr := GetSymHandler(ve, h, name); }
      a := Value(addr);
      if addr != 0 { cache := cache[(h, name) := addr]; }
    }

    /** Transparency over every sequential run of loads, unloads and lookups: the answers are those the VE would
    give, each at its place in the run. */
    method RunAll(rs: seq<Request>) returns (answers: seq<Answer>)
      requires Valid() && PossibleRun(ve, rs)
      modifies this
      ensures Valid() && ve == Effects(old(ve), rs) && |answers| == |rs|
      ensures forall i :: 0 <= i < |rs| ==> Agrees(answers[i], Effects(old(ve), rs[..i]), rs[i])
    {
      hide Agrees, Effect, CanOpen;
      answers := [];
      for i := 0 to |rs|
        invariant Valid() && ve == Effects(old(ve), rs[..i]) && |answers| == i
        invariant forall j :: 0 <= j < i ==> Agrees(answers[j], Effects(old(ve), rs[..j]), rs[j])
      {
        var a;
        assert rs[..i + 1][..i] == rs[..i];
        GetSymNoEffect(ve, rs[i]);
        match rs[i] {
          case Load(lib, h, ok) => a := LoadLibrary(lib, h, ok);
          case Unload(h, ok) => a := UnloadLibrary(h, ok);
          case GetSym(h, name, ok) => a := GetSym(h, name, ok);
        }
        answers := answers + [a];
      }
      assert rs[..|rs|] == rs;
    }
  }

  lemma GetSymNoEffect(ve: VE, r: Request)
    ensures r.GetSym? ==> Effect(ve, r) == ve
  {
  }
}
