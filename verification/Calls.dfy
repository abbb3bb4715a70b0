/**
 The calling convention: plain arguments are borrowed, `own` arguments hand their reference
 to the callee, and the result is owned by the caller.
 */
module Calls {
  import opened Source
  import opened Machine
  import opened Lowering
  import opened Ownership
  import opened Legality
  import opened Matching
  import opened SimExpr

  function ParamSlots(xs: seq<Var>, objs: seq<Obj>): map<Var, Obj>
    requires |xs| == |objs|
  {
    if xs == [] then map[]
    else ParamSlots(xs[..|xs| - 1], objs[..|objs| - 1])[xs[|xs| - 1] := objs[|objs| - 1]]
  }

  lemma {:induction false} ParamsAt(xs: seq<Var>, objs: seq<Obj>, vs: seq<SVal>, k: nat)
    requires |xs| == |objs| == |vs| && k < |xs| && Distinct(xs)
    ensures xs[k] in ParamSlots(xs, objs) && ParamSlots(xs, objs)[xs[k]] == objs[k]
    ensures xs[k] in ParamEnv(xs, vs) && ParamEnv(xs, vs)[xs[k]] == vs[k]
    decreases |xs|
  {
    var n := |xs| - 1;
    if k < n { ParamsAt(xs[..n], objs[..n], vs[..n], k); }
  }

  lemma {:induction false} OwnMovesFrom(args: seq<SExpr>, params: seq<Var>, x: Var) returns (k: nat)
    requires |args| == |params| && x in OwnMoves(args, params)
    ensures k < |args| && params[k].own && args[k] == SVar(x)
    decreases |args|
  {
    if args[0].SVar? && args[0].x == x && params[0].own {
      k := 0;
    } else {
      k := OwnMovesFrom(args[1..], params[1..], x);
      k := k + 1;
    }
  }

  /** The references handed over are exactly those in the callee's own-parameter slots. */
  lemma {:induction false} HandOver(args: seq<SExpr>, params: seq<Var>, objs: seq<Obj>, owned: seq<Var>,
                                    moved: set<Var>, svars: map<Var, Obj>, slots: map<Var, Obj>)
    requires |args| == |params| == |objs| && Distinct(owned)
    requires forall k :: 0 <= k < |args| && params[k].own ==>
      && args[k].SVar? && args[k].x.own && args[k].x in owned && args[k].x !in moved
      && args[k].x in svars && svars[args[k].x] == objs[k]
    requires forall j, k :: 0 <= j < |args| && 0 <= k < |args| && j != k && params[k].own ==> args[j] != args[k]
    requires forall k :: 0 <= k < |params| ==> params[k] in slots && slots[params[k]] == objs[k]
    ensures VarRefs(owned, moved, svars)
         == VarRefs(owned, moved + OwnMoves(args, params), svars) + VarRefs(OwnParams(params), {}, slots)
    decreases |args|
  {
    if args == [] {
      assert moved + OwnMoves(args, params) == moved;
    } else {
      var tail := VarRefs(OwnParams(params[1..]), {}, slots);
      if params[0].own {
        var x := args[0].x;
        VarRefsMove(owned, moved, svars, x);
        HandOver(args[1..], params[1..], objs[1..], owned, moved + {x}, svars, slots);
        assert moved + OwnMoves(args, params) == moved + {x} + OwnMoves(args[1..], params[1..]);
        OneMoreOwn(params, slots);
      } else {
        HandOver(args[1..], params[1..], objs[1..], owned, moved, svars, slots);
        assert OwnMoves(args, params) == OwnMoves(args[1..], params[1..]);
        assert OwnParams(params) == OwnParams(params[1..]);
      }
    }
  }

  lemma OneMoreOwn(params: seq<Var>, slots: map<Var, Obj>)
    requires params != [] && params[0].own && params[0] in slots
    ensures VarRefs(OwnParams(params), {}, slots)
         == multiset{slots[params[0]]} + VarRefs(OwnParams(params[1..]), {}, slots)
  {
    VarRefsAppend([params[0]], OwnParams(params[1..]), {}, slots);
    assert [params[0]][..0] == [];
  }

  // ---- Evaluated arguments ----

  ghost predicate ArgsReady(es: seq<SExpr>, regs: seq<Reg>, vs: seq<SVal>, temps: seq<Reg>, next: Reg, f: Frame, h: Heap) {
    && |regs| == |es| == |vs|
    && forall k :: 0 <= k < |es| ==>
         Carries(es[k], regs[k], temps, f) && regs[k] < next && Denotes(h, f.sregs[regs[k]], vs[k])
  }

  lemma ArgsReadyKept(es: seq<SExpr>, regs: seq<Reg>, vs: seq<SVal>, temps: seq<Reg>, next: Reg, f: Frame, h: Heap,
                      temps': seq<Reg>, next': Reg, g: Frame, h': Heap)
    requires ArgsReady(es, regs, vs, temps, next, f, h)
    requires SameFrame(f, g, next) && SameSlots(f, g) && temps <= temps' && next <= next' && Keeps(h, h')
    ensures ArgsReady(es, regs, vs, temps', next', g, h')
  {
    forall k | 0 <= k < |es|
      ensures Carries(es[k], regs[k], temps', g) && Denotes(h', g.sregs[regs[k]], vs[k])
    {
      CarriesKept(es[k], regs[k], temps, temps', f, g, next);
    }
  }

  /** Plain arguments stay alive on references the caller keeps. */
  lemma BorrowedArg(args: seq<SExpr>, params: seq<Var>, k: nat, r: Reg, c: Ctx, moved: set<Var>, moves: set<Var>,
                    temps: seq<Reg>, f: Frame, ext: multiset<Obj>)
    requires |args| == |params| && k < |args| && !params[k].own
    requires HandsOver(args, params, c) && Carries(args[k], r, temps, f)
    requires args[k].SVar? ==> Readable(c, moved, args[k].x)
    requires moves == OwnMoves(args, params) && BorrowsOk(c, f, ext)
    ensures f.sregs[r] == 0 || f.sregs[r] in Held(c.owned, moved + moves, temps, f) + ext
  {
    if args[k].SVar? {
      var x := args[k].x;
      if x in moves {
        var j := OwnMovesFrom(args, params, x);
      }
      if x !in c.borrowed { VarIsHeld(c.owned, moved + moves, f.svars, x); }
    } else {
      TempIsHeld(temps, f.sregs, r);
    }
  }

  // ---- Entering a function ----

  /** What a callee may assume when it is entered. */
  ghost predicate Enterable(f: Fun, objs: seq<Obj>, vs: seq<SVal>, h: Heap, ext: multiset<Obj>, exact: bool) {
    && |objs| == |vs| == |f.params|
    && (forall k :: 0 <= k < |objs| ==> Denotes(h, objs[k], vs[k]))
    && (forall k :: 0 <= k < |objs| && !f.params[k].own ==> objs[k] == 0 || objs[k] in ext)
    && Owns(h, VarRefs(OwnParams(f.params), {}, ParamSlots(f.params, objs)) + ext, exact)
  }

  function Bound(svars: map<Var, Obj>, xs: seq<Var>, objs: seq<Obj>): map<Var, Obj>
    requires |xs| == |objs|
    decreases |xs|
  {
    if xs == [] then svars else Bound(svars[xs[0] := objs[0]], xs[1..], objs[1..])
  }

  lemma {:induction false} BoundAt(svars: map<Var, Obj>, xs: seq<Var>, objs: seq<Obj>)
    requires |xs| == |objs| && Distinct(xs)
    ensures forall k :: 0 <= k < |xs| ==> xs[k] in Bound(svars, xs, objs) && Bound(svars, xs, objs)[xs[k]] == objs[k]
    ensures forall x :: x in svars && x !in xs ==> x in Bound(svars, xs, objs) && Bound(svars, xs, objs)[x] == svars[x]
    decreases |xs|
  {
    if xs != [] { BoundAt(svars[xs[0] := objs[0]], xs[1..], objs[1..]); }
  }

  /** Storing the arguments from position k on. */
  lemma {:induction false} SimStoreArgs(w: World, cg: CG, xs: seq<Var>, k: nat, st: State)
    returns (st': State)
    requires Ok(cg) && st.Running? && AtEnd(cg, st.top) && k + |xs| == |st.top.args|
    requires Linked(w.code, st.top.fn, StoreArgs(cg, xs, k))
    ensures Leads(w.code, st, |xs|, st', 0) && st'.heap == st.heap
    ensures AtEnd(StoreArgs(cg, xs, k), st'.top)
    ensures st'.top.svars == Bound(st.top.svars, xs, st.top.args[k..])
    decreases |xs|
  {
    if xs == [] {
      st' := st;
    } else {
      var c1 := Emit(cg, StoreArg(xs[0], k));
      LinkedBefore(w.code, st.top.fn, c1, StoreArgs(cg, xs, k));
      var st1 := StoreArgStep(w, cg, xs[0], k, st);
      hide Linked, Emit, Keeps;
      assert st.top.args[k..][1..] == st.top.args[k + 1..];
      st' := SimStoreArgs(w, c1, xs[1..], k + 1, st1);
      LeadsTrans(w.code, st, 1, st1, |xs[1..]|, st', 0, 0);
    }
  }

  lemma StoreArgStep(w: World, cg: CG, x: Var, k: nat, st: State) returns (st': State)
    requires Ok(cg) && st.Running? && AtEnd(cg, st.top) && k < |st.top.args|
    requires Linked(w.code, st.top.fn, Emit(cg, StoreArg(x, k)))
    ensures Leads(w.code, st, 1, st', 0) && st'.heap == st.heap && AtEnd(Emit(cg, StoreArg(x, k)), st'.top)
    ensures st'.top.svars == st.top.svars[x := st.top.args[k]]
  {
    Fetch(w.code, st.top.fn, cg, StoreArg(x, k), st);
    st' := Running(st.top.(svars := st.top.svars[x := st.top.args[k]], pc := st.top.pc + 1), st.rest, st.heap);
    OneStep(w.code, st, st');
  }

  // ---- The callee's first state ----

  function EntryEnv(f: Fun, vs: seq<SVal>): Env
    requires |f.params| == |vs|
  {
    Env(ParamEnv(f.params, vs), map[])
  }

  lemma {:induction false} OwnParamsIn(xs: seq<Var>)
    ensures forall x :: x in OwnParams(xs) <==> x in xs && x.own
    ensures Distinct(xs) ==> Distinct(OwnParams(xs))
    decreases |xs|
  {
    if xs != [] {
      OwnParamsIn(xs[1..]);
      assert xs == [xs[0]] + xs[1..];
    }
  }

  lemma EntryInv(f: Fun, objs: seq<Obj>, vs: seq<SVal>, fr: Frame, h: Heap, ext: multiset<Obj>, exact: bool,
                 part: set<nat>, next: Reg)
    requires Distinct(f.params) && Enterable(f, objs, vs, h, ext, exact)
    requires forall k :: 0 <= k < |f.params| ==> f.params[k] in fr.svars && fr.svars[f.params[k]] == objs[k]
    ensures Inv({}, [], next, FunCtx(f, exact, part).(owned := OwnParams(f.params)), fr, h, EntryEnv(f, vs), ext)
  {
    var c := FunCtx(f, exact, part).(owned := OwnParams(f.params));
    OwnParamsIn(f.params);
    forall x | x in f.params
      ensures x in fr.svars && x in EntryEnv(f, vs).strs && Denotes(h, fr.svars[x], EntryEnv(f, vs).strs[x])
      ensures x in ParamSlots(f.params, objs) && ParamSlots(f.params, objs)[x] == fr.svars[x]
      ensures !x.own ==> fr.svars[x] == 0 || fr.svars[x] in ext
    {
      var k :| 0 <= k < |f.params| && f.params[k] == x;
      ParamsAt(f.params, objs, vs, k);
    }
    VarRefsFrame(OwnParams(f.params), {}, ParamSlots(f.params, objs), fr.svars);
    assert Held(c.owned, {}, [], fr) + ext == VarRefs(OwnParams(f.params), {}, ParamSlots(f.params, objs)) + ext;
  }

  /** From the call to the first statement of the callee. */
  lemma SimEntry(w: World, g: nat, dst: Reg, objs: seq<Obj>, vs: seq<SVal>, st: State, exact: bool, part: set<nat>)
    returns (st': State)
    requires g < |w.p| && Distinct(w.p[g].params) && st.Running? && st.top == Entry(g, dst, objs)
    requires Enterable(w.p[g], objs, vs, st.heap, w.ext, exact)
    requires Linked(w.code, g, Prologue(w.p[g]))
    ensures Leads(w.code, st, |objs|, st', 0)
    ensures Good(Prologue(w.p[g]), At(Prologue(w.p[g]), FunCtx(w.p[g], exact, part)), st', EntryEnv(w.p[g], vs), w.ext)
  {
    var f := w.p[g];
    assert Linked(w.code, g, StoreArgs(EMPTY, f.params, 0));
    st' := SimStoreArgs(w, EMPTY, f.params, 0, st);
    BoundAt(map[], f.params, objs);
    assert objs[0..] == objs;
    EntryInv(f, objs, vs, st'.top, st'.heap, w.ext, exact, part, Prologue(f).next);
    StoreArgsMoves(EMPTY, f.params, 0);
    assert Flat([OwnParams(f.params)]) == OwnParams(f.params) by {
      assert [OwnParams(f.params)][..0] == [];
      assert Flat([]) == [];
    }
  }

  lemma {:induction false} StoreArgsMoves(cg: CG, xs: seq<Var>, k: nat)
    requires Ok(cg)
    ensures StoreArgs(cg, xs, k).moved == cg.moved && StoreArgs(cg, xs, k).temps == cg.temps
    decreases xs
  {
    if xs != [] { StoreArgsMoves(Emit(cg, StoreArg(xs[0], k)), xs[1..], k + 1); }
  }
}
