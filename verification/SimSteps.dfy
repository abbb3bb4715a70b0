/**
 Running the code of an expression: the finishing steps of string operations, calls and
 short-circuit conditions. The recursion over whole programs is in module Simulation.
 */
module SimSteps {
  import opened Source
  import opened Machine
  import opened Lowering
  import opened Ownership
  import opened Legality
  import opened Matching
  import opened SimExpr
  import opened Calls

  /** Register `r` carries the value `v` of the string expression `e`. */
  ghost predicate Result(e: SExpr, r: Reg, v: SVal, cg: CG, st: State)
    requires st.Running?
  {
    Carries(e, r, cg.temps, st.top) && r < cg.next && Denotes(st.heap, st.top.sregs[r], v)
  }

  lemma ResultKept(e: SExpr, r: Reg, v: SVal, a: CG, b: CG, s: State, t: State)
    requires s.Running? && t.Running? && Result(e, r, v, a, s)
    requires SameFrame(s.top, t.top, a.next) && SameSlots(s.top, t.top) && Keeps(s.heap, t.heap)
    requires a.temps <= b.temps && a.next <= b.next
    ensures Result(e, r, v, b, t)
  {
    CarriesKept(e, r, a.temps, b.temps, s.top, t.top, a.next);
  }

  /** An operand that was not moved since can be used, and has the expected content. */
  lemma UsableResult(e: SExpr, r: Reg, v: SVal, cg: CG, st: State, c: Ctx, env: Env, ext: multiset<Obj>)
    requires Good(cg, c, st, env, ext) && Result(e, r, v, cg, st)
    requires e.SVar? ==> Readable(c, cg.moved, e.x)
    ensures Usable(st.top, st.heap, r) && Content(st.heap, st.top.sregs[r]) == v
  {
    hide Inv;
    CarriedIsAlive(e, r, cg.moved, cg.temps, cg.next, c, st.top, st.heap, env, ext);
  }

  lemma FreshTempResult(e: SExpr, i: Instr, v: SVal, cg: CG, st: State)
    requires Ok(cg) && st.Running? && !e.SVar?
    requires cg.next in st.top.sregs && Denotes(st.heap, st.top.sregs[cg.next], v)
    ensures Result(e, cg.next, v, EmitTemp(cg, i).0, st)
  {
    assert EmitTemp(cg, i).0.temps[|cg.temps|] == cg.next;
  }

  // ---- String operations ----

  lemma ConcatDone(w: World, l: SExpr, r: SExpr, a: Reg, b: Reg, cg: CG, c: Ctx, st: State, env: Env, va: SVal, vb: SVal)
    returns (st': State)
    requires Good(cg, c, st, env, w.ext)
    requires Linked(w.code, st.top.fn, EmitTemp(cg, ConcatStr(cg.next, a, b)).0)
    requires Result(l, a, va, cg, st) && (l.SVar? ==> Readable(c, cg.moved, l.x))
    requires Result(r, b, vb, cg, st) && (r.SVar? ==> Readable(c, cg.moved, r.x))
    ensures Arrives(w.code, st, 1, st', cg, EmitTemp(cg, ConcatStr(cg.next, a, b)).0, c, env, w.ext)
    ensures Result(Concat(l, r), cg.next, Text(Chars(va) + Chars(vb)), EmitTemp(cg, ConcatStr(cg.next, a, b)).0, st')
  {
    hide Inv, Linked, Denotes;
    UsableResult(l, a, va, cg, st, c, env, w.ext);
    UsableResult(r, b, vb, cg, st, c, env, w.ext);
    var i := ConcatStr(cg.next, a, b);
    st' := AllocStep(w.code, st.top.fn, cg, i, Chars(va) + Chars(vb), st, c, env, w.ext);
    FreshTempResult(Concat(l, r), i, Text(Chars(va) + Chars(vb)), cg, st');
  }

  lemma EqualsDone(w: World, l: SExpr, r: SExpr, a: Reg, b: Reg, cg: CG, c: Ctx, st: State, env: Env, va: SVal, vb: SVal)
    returns (st': State)
    requires Good(cg, c, st, env, w.ext)
    requires Linked(w.code, st.top.fn, Emit(Fresh(cg), StringEquals(cg.next, a, b)))
    requires Result(l, a, va, cg, st) && (l.SVar? ==> Readable(c, cg.moved, l.x))
    requires Result(r, b, vb, cg, st) && (r.SVar? ==> Readable(c, cg.moved, r.x))
    ensures Arrives(w.code, st, 1, st', cg, Emit(Fresh(cg), StringEquals(cg.next, a, b)), c, env, w.ext)
    ensures HasInt(st'.top, Tmp(cg.next), cg.next + 1, BoolInt(va == vb))
  {
    hide Inv, Linked, Denotes;
    UsableResult(l, a, va, cg, st, c, env, w.ext);
    UsableResult(r, b, vb, cg, st, c, env, w.ext);
    st' := IntStep(w.code, st.top.fn, cg, StringEquals(cg.next, a, b), st, c, env, w.ext, BoolInt(va == vb));
  }

  // ---- Calls ----

  /** The caller's references while a callee runs. */
  function Waiting(c: Ctx, moved: set<Var>, temps: seq<Reg>, f: Frame, ext: multiset<Obj>): multiset<Obj> {
    Held(c.owned, moved, temps, f) + ext
  }

  /** A call whose arguments are evaluated and were not moved away by one another. */
  ghost predicate Callable(w: World, g: nat, args: seq<SExpr>, regs: seq<Reg>, vs: seq<SVal>, cg: CG, c: Ctx,
                           st: State, env: Env)
  {
    && Good(cg, c, st, env, w.ext) && g < |w.p| && |args| == |w.p[g].params| == |regs|
    && ArgsReady(args, regs, vs, cg.temps, cg.next, st.top, st.heap)
    && HandsOver(args, w.p[g].params, c) && Distinct(w.p[g].params)
    && (forall k :: 0 <= k < |args| && args[k].SVar? ==> Readable(c, cg.moved, args[k].x))
    && (forall x :: x in c.borrowed ==> !x.own)
  }

  function AfterCall(w: World, g: nat, args: seq<SExpr>, cg: CG, c: Ctx, f: Frame): multiset<Obj>
    requires g < |w.p|
  {
    Waiting(c, cg.moved + OwnMoves(args, w.p[g].params), cg.temps, f, w.ext)
  }

  lemma CallBorrows(w: World, g: nat, args: seq<SExpr>, regs: seq<Reg>, vs: seq<SVal>, cg: CG, c: Ctx, st: State,
                    env: Env, k: nat)
    requires Callable(w, g, args, regs, vs, cg, c, st, env) && k < |args| && !w.p[g].params[k].own
    ensures var o := ArgObjs(st.top, regs)[k]; o == 0 || o in AfterCall(w, g, args, cg, c, st.top)
  {
    hide Owns, Distinct, VarsOk;
    BorrowedArg(args, w.p[g].params, k, regs[k], c, cg.moved, OwnMoves(args, w.p[g].params), cg.temps, st.top, w.ext);
  }

  lemma CallHandsOver(w: World, g: nat, args: seq<SExpr>, regs: seq<Reg>, vs: seq<SVal>, cg: CG, c: Ctx, st: State,
                      env: Env)
    requires Callable(w, g, args, regs, vs, cg, c, st, env)
    ensures Held(c.owned, cg.moved, cg.temps, st.top) + w.ext
         == VarRefs(OwnParams(w.p[g].params), {}, ParamSlots(w.p[g].params, ArgObjs(st.top, regs)))
            + AfterCall(w, g, args, cg, c, st.top)
  {
    var params := w.p[g].params;
    var objs := ArgObjs(st.top, regs);
    var slots := ParamSlots(params, objs);
    forall k | 0 <= k < |objs| ensures params[k] in slots && slots[params[k]] == objs[k] {
      ParamsAt(params, objs, vs, k);
    }
    hide Owns, Distinct, Denotes;
    forall k | 0 <= k < |args| && params[k].own
      ensures args[k].x in st.top.svars && st.top.svars[args[k].x] == objs[k] && args[k].x !in cg.moved
    {
      assert Carries(args[k], regs[k], cg.temps, st.top);
    }
    HandOver(args, params, objs, c.owned, cg.moved, st.top.svars, slots);
  }

  /** The arguments of a legal call satisfy the callee's entry condition. */
  lemma CallIsEnterable(w: World, g: nat, args: seq<SExpr>, regs: seq<Reg>, vs: seq<SVal>, cg: CG, c: Ctx, st: State,
                        env: Env)
    requires Callable(w, g, args, regs, vs, cg, c, st, env)
    ensures Enterable(w.p[g], ArgObjs(st.top, regs), vs, st.heap, AfterCall(w, g, args, cg, c, st.top), c.exact)
  {
    var objs := ArgObjs(st.top, regs);
    var ext2 := AfterCall(w, g, args, cg, c, st.top);
    forall k | 0 <= k < |objs| && !w.p[g].params[k].own ensures objs[k] == 0 || objs[k] in ext2 {
      CallBorrows(w, g, args, regs, vs, cg, c, st, env, k);
    }
    CallHandsOver(w, g, args, regs, vs, cg, c, st, env);
    hide Owns, Distinct, Denotes, HandsOver, Held, AfterCall, VarsOk;
  }

  /** Moving variables away: fewer are readable, the references move to the account given. */
  lemma InvMoved(moved: set<Var>, moved': set<Var>, temps: seq<Reg>, next: Reg, c: Ctx, f: Frame, h: Heap, h': Heap,
                 env: Env, ext: multiset<Obj>, o: Obj)
    requires Inv(moved, temps, next, c, f, h, env, ext) && moved <= moved' && Keeps(h, h')
    requires Owns(h', Held(c.owned, moved', temps, f) + ext + multiset{o}, c.exact)
    ensures Inv(moved', temps + [next], next + 1, c, SetS(f, next, o), h', env, ext)
    ensures SameFrame(f, SetS(f, next, o), next) && SameSlots(f, SetS(f, next, o))
  {
    hide Owns, BorrowsOk, Keeps, TempsOk, VarRefs, TempRefs, Distinct, Denotes;
    var g := SetS(f, next, o);
    assert VarsOk(c, moved', f, h, env);
    SlotsFrame(c, moved', f, g, h', env, ext);
    PushTemp(temps, next, f, o);
    assert Held(c.owned, moved', temps + [next], g) + ext == Held(c.owned, moved', temps, f) + ext + multiset{o};
    VarsKept(c, moved', f, h, h', env);
  }

  /** The call itself: a new frame on top of the caller's. */
  lemma CallPush(w: World, g: nat, regs: seq<Reg>, cg: CG, st: State) returns (st': State)
    requires Ok(cg) && st.Running? && AtEnd(cg, st.top)
    requires Linked(w.code, st.top.fn, EmitTemp(cg, CallFn(cg.next, g, regs)).0)
    requires forall a :: a in regs ==> a in st.top.sregs
    ensures st' == Running(Entry(g, cg.next, ArgObjs(st.top, regs)), [st.top.(pc := st.top.pc + 1)] + st.rest, st.heap)
    ensures Steps(w.code, st, 1) == st'
  {
    hide Prefixes;
    Fetch(w.code, st.top.fn, Fresh(cg), CallFn(cg.next, g, regs), st);
    st' := Running(Entry(g, cg.next, ArgObjs(st.top, regs)), [st.top.(pc := st.top.pc + 1)] + st.rest, st.heap);
    OneStep(w.code, st, st');
  }

  /** A finished call: `v` was returned in `o`, one reference to it belongs to the caller. */
  ghost predicate Returned(w: World, st: State, k: nat, o: Obj, h: Heap, v: SVal, exact: bool)
    requires st.Running?
  {
    && Steps(w.code, st, k) == PopFrame(st.rest, st.top.dst, o, h)
    && Denotes(h, o, v)
    && Owns(h, multiset{o} + w.ext, exact)
    && Keeps(st.heap, h)
  }

  /** The caller resumes with the result as a statement temporary. */
  lemma CallPop(w: World, e: SExpr, i: Instr, cg: CG, moves: set<Var>, c: Ctx, st: State, env: Env, st1: State,
                k: nat, o: Obj, h: Heap, v: SVal)
    returns (st': State)
    requires Good(cg, c, st, env, w.ext) && !e.SVar? && st1.Running? && st1.top.dst == cg.next
    requires st1.rest == [st.top.(pc := st.top.pc + 1)] + st.rest && st1.heap == st.heap
    requires Steps(w.code, st, 1) == st1
    requires Returned(w.(ext := Waiting(c, cg.moved + moves, cg.temps, st.top, w.ext)), st1, k, o, h, v, c.exact)
    ensures var cg2 := EmitTemp(cg.(moved := cg.moved + moves), i).0;
      Arrives(w.code, st, 1 + k, st', cg, cg2, c, env, w.ext) && Result(e, cg.next, v, cg2, st')
  {
    hide Owns, Steps, Denotes, Held, Inv;
    st' := Running(SetS(st.top, cg.next, o), st.rest, h);
    assert st1.rest[1..] == st.rest;
    StepsAdd(w.code, st, 1, k);
    var refs := Held(c.owned, cg.moved + moves, cg.temps, st.top) + w.ext;
    assert multiset{o} + refs == refs + multiset{o};
    FreshTempResult(e, i, v, cg, st');
    InvMoved(cg.moved, cg.moved + moves, cg.temps, cg.next, c, st.top, st.heap, h, env, w.ext, o);
  }

  // ---- Branches ----

  ghost predicate HasBool(f: Frame, v: Operand, next: Reg, b: bool) {
    Defined(f, v) && (IntOf(f, v) != 0) == b && (v.Tmp? ==> v.r < next)
  }

  ghost predicate At0(b: nat, f: Frame) {
    f.bb == b && f.pc == 0
  }

  /** From `st`, k steps lead to the start of block `b` with the invariant intact. */
  ghost predicate Reaches(w: World, st: State, k: nat, st': State, next: Reg, b: nat, moved: set<Var>, temps: seq<Reg>,
                          next': Reg, c: Ctx, env: Env)
  {
    && Leads(w.code, st, k, st', next)
    && At0(b, st'.top)
    && Inv(moved, temps, next', c, st'.top, st'.heap, env, w.ext)
  }

  lemma JumpInv(cg: CG, b: nat, c: Ctx, st: State, env: Env, ext: multiset<Obj>)
    requires Good(cg, c, st, env, ext)
    ensures Inv(cg.moved, cg.temps, cg.next, c, Jump(st.top, b), st.heap, env, ext)
    ensures SameFrame(st.top, Jump(st.top, b), cg.next)
  {
    InvPc(cg.moved, cg.temps, cg.next, c, st.top, Jump(st.top, b), st.heap, env, ext);
  }

  lemma BrStep(w: World, cg: CG, b: nat, c: Ctx, st: State, env: Env) returns (st': State)
    requires Good(cg, c, st, env, w.ext) && Linked(w.code, st.top.fn, Emit(cg, Br(b)))
    ensures Reaches(w, st, 1, st', cg.next, b, cg.moved, cg.temps, cg.next, c, env)
    ensures SameSlots(st.top, st'.top) && st'.top.prev == cg.cur
    ensures st'.top.sregs == st.top.sregs && st'.top.iregs == st.top.iregs
  {
    hide Inv, Prefixes;
    Fetch(w.code, st.top.fn, cg, Br(b), st);
    st' := Running(Jump(st.top, b), st.rest, st.heap);
    OneStep(w.code, st, st');
    JumpInv(cg, b, c, st, env, w.ext);
  }

  lemma CondBrStep(w: World, cg: CG, v: Operand, b: bool, yes: nat, no: nat, c: Ctx, st: State, env: Env)
    returns (st': State)
    requires Good(cg, c, st, env, w.ext) && Linked(w.code, st.top.fn, Emit(cg, CondBr(v, yes, no)))
    requires HasBool(st.top, v, cg.next, b)
    ensures Reaches(w, st, 1, st', cg.next, if b then yes else no, cg.moved, cg.temps, cg.next, c, env)
    ensures SameSlots(st.top, st'.top) && st'.top.prev == cg.cur
    ensures st'.top.sregs == st.top.sregs && st'.top.iregs == st.top.iregs
  {
    hide Inv, Prefixes;
    Fetch(w.code, st.top.fn, cg, CondBr(v, yes, no), st);
    st' := Running(Jump(st.top, if b then yes else no), st.rest, st.heap);
    OneStep(w.code, st, st');
    JumpInv(cg, if b then yes else no, c, st, env, w.ext);
  }

  /** A comparison with zero. */
  lemma NonZeroStep(w: World, cg: CG, v: Operand, b: bool, c: Ctx, st: State, env: Env)
    returns (st': State)
    requires Good(cg, c, st, env, w.ext) && HasBool(st.top, v, cg.next, b)
    requires Linked(w.code, st.top.fn, Emit(Fresh(cg), IntCmp(cg.next, Ne, v, Imm(0))))
    ensures Arrives(w.code, st, 1, st', cg, Emit(Fresh(cg), IntCmp(cg.next, Ne, v, Imm(0))), c, env, w.ext)
    ensures HasInt(st'.top, Tmp(cg.next), cg.next + 1, BoolInt(b))
    ensures HasBool(st'.top, Tmp(cg.next), cg.next + 1, b)
  {
    hide Inv, Prefixes;
    st' := IntStep(w.code, st.top.fn, cg, IntCmp(cg.next, Ne, v, Imm(0)), st, c, env, w.ext, BoolInt(b));
  }

  /** More variables count as moved; only an exact account notices. */
  lemma InvMoveMore(moved: set<Var>, moved': set<Var>, temps: seq<Reg>, next: Reg, next': Reg, c: Ctx, f: Frame,
                    h: Heap, env: Env, ext: multiset<Obj>)
    requires Inv(moved, temps, next, c, f, h, env, ext) && moved <= moved' && next <= next'
    requires c.exact ==> MovedAlike(c.owned, moved, moved')
    ensures Inv(moved', temps, next', c, f, h, env, ext)
  {
    VarRefsMoveMore(c.owned, moved, moved', f.svars);
    hide VarRefs, TempRefs, Distinct, BorrowsOk, Denotes;
    if !c.exact {
      var fewer := Held(c.owned, moved', temps, f) + ext;
      OwnsFewer(h, Held(c.owned, moved, temps, f) + ext, fewer);
    } else {
      VarRefsAgree(c.owned, moved, moved', f.svars);
    }
    hide Owns;
  }

  // ---- Short-circuit conditions ----

  /** After the left operand: on to the right block, or straight to the merge block. */
  lemma SimOpenRight(w: World, v: Operand, b: bool, isAnd: bool, cg: CG, c: Ctx, st: State, env: Env)
    returns (st': State)
    requires Good(cg, c, st, env, w.ext) && HasBool(st.top, v, cg.next, b)
    requires Linked(w.code, st.top.fn, OpenRight(cg, v, isAnd))
    ensures Reaches(w, st, 2, st', cg.next, if b == isAnd then |cg.blocks| else |cg.blocks| + 1,
                    cg.moved, cg.temps, cg.next + 1, c, env)
    ensures SameSlots(st.top, st'.top) && st'.top.prev == cg.cur
    ensures b == isAnd ==> Good(OpenRight(cg, v, isAnd), c, st', env, w.ext)
  {
    hide Inv;
    var rhs := |cg.blocks|;
    var i := IntCmp(cg.next, Ne, v, Imm(0));
    var c1 := Emit(Fresh(cg), i);
    var yes, no := if isAnd then rhs else rhs + 1, if isAnd then rhs + 1 else rhs;
    assert Linked(w.code, st.top.fn, Emit(AddBlocks(c1, 2), CondBr(Tmp(cg.next), yes, no)));
    LinkedBefore(w.code, st.top.fn, c1, AddBlocks(c1, 2));
    var st1 := NonZeroStep(w, cg, v, b, c, st, env);
    hide Prefixes, Linked, Keeps;
    st' := CondBrStep(w, AddBlocks(c1, 2), Tmp(cg.next), b, yes, no, c, st1, env);
    LeadsTrans(w.code, st, 1, st1, 1, st', cg.next, cg.next + 1);
  }

  ghost predicate Shape(c1: CG, c2: CG, c3: CG) {
    && Ok(c1) && Extends(c1, c2) && Extends(c2, c3)
    && |c2.blocks| == |c1.blocks| + 2 && c2.cur == |c1.blocks| && c2.blocks[|c1.blocks| + 1] == []
  }

  /** The right operand was evaluated: compare, flush its temporaries, join. */
  lemma SimRightEnd(w: World, c1: CG, c2: CG, c3: CG, v: Operand, b: bool, c: Ctx, st: State, env: Env)
    returns (k: nat, st': State)
    requires Shape(c1, c2, c3) && Good(c3, c, st, env, w.ext) && HasBool(st.top, v, c3.next, b)
    requires Linked(w.code, st.top.fn, Emit(RightEnd(c1, c3, v), Br(|c1.blocks| + 1)))
    ensures Reaches(w, st, k, st', c3.next, |c1.blocks| + 1, c3.moved, c1.temps, RightEnd(c1, c3, v).next, c, env)
    ensures SameSlots(st.top, st'.top) && st'.top.prev == c3.cur
    ensures HasInt(st'.top, Tmp(c3.next), c3.next + 1, BoolInt(b))
  {
    hide Inv;
    var c4 := Emit(Fresh(c3), IntCmp(c3.next, Ne, v, Imm(0)));
    var c5 := RightEnd(c1, c3, v);
    LinkedBefore(w.code, st.top.fn, c5, Emit(c5, Br(|c1.blocks| + 1)));
    LinkedBefore(w.code, st.top.fn, c4, c5);
    var st1 := NonZeroStep(w, c3, v, b, c, st, env);
    assert c1.temps <= c4.temps;
    hide Prefixes, Linked, Keeps;
    var k2, st2 := SimFlush(w, |c1.temps|, c4, c, st1, env);
    LeadsTrans(w.code, st, 1, st1, k2, st2, c3.next, c4.next);
    var st3 := BrStep(w, c5, |c1.blocks| + 1, c, st2, env);
    LeadsTrans(w.code, st, 1 + k2, st2, 1, st3, c3.next, c5.next);
    k, st' := 1 + k2 + 1, st3;
  }

  /** At the merge block: the phi selects by the edge taken. */
  lemma SimPhi(w: World, c1: CG, c2: CG, c3: CG, v: Operand, isAnd: bool, b: bool, c: Ctx, st: State, env: Env)
    returns (st': State)
    requires Shape(c1, c2, c3) && st.Running?
    requires Linked(w.code, st.top.fn, CloseRight(c1, c2, c3, v, isAnd).0)
    requires At0(|c1.blocks| + 1, st.top)
    requires Inv(c3.moved, c1.temps, JoinRight(c1, c2, c3, v).next, c, st.top, st.heap, env, w.ext)
    requires if st.top.prev == c1.cur then b != isAnd
             else st.top.prev == c3.cur && HasInt(st.top, Tmp(c3.next), c3.next + 1, BoolInt(b))
    ensures Leads(w.code, st, 1, st', JoinRight(c1, c2, c3, v).next) && SameSlots(st.top, st'.top)
    ensures Good(CloseRight(c1, c2, c3, v, isAnd).0, c, st', env, w.ext)
    ensures HasBool(st'.top, CloseRight(c1, c2, c3, v, isAnd).1, CloseRight(c1, c2, c3, v, isAnd).0.next, b)
  {
    hide Inv, Linked, Prefixes, RightEnd;
    var c6 := JoinRight(c1, c2, c3, v);
    var i := Phi(c6.next, if isAnd then 0 else 1, c1.cur, Tmp(c3.next), c3.cur);
    assert Good(c6, c, st, env, w.ext);
    st' := IntStep(w.code, st.top.fn, c6, i, st, c, env, w.ext, BoolInt(b));
  }

  /** Two integers are compared. */
  lemma CmpDone(w: World, op: CmpOp, l: IExpr, r: IExpr, cg: CG, c: Ctx, st: State, env: Env)
    returns (k: nat, st': State)
    requires Good(cg, c, st, env, w.ext) && LegalI(l, c) && LegalI(r, c)
    requires Linked(w.code, st.top.fn, GenB(w.p, Cmp(op, l, r), cg).0)
    ensures Arrives(w.code, st, k, st', cg, GenB(w.p, Cmp(op, l, r), cg).0, c, env, w.ext)
    ensures HasBool(st'.top, GenB(w.p, Cmp(op, l, r), cg).1, GenB(w.p, Cmp(op, l, r), cg).0.next,
                    CmpVal(op, EvalI(l, env), EvalI(r, env)))
  {
    hide Inv, Keeps, GenI, LegalI, EvalI, CmpVal;
    var (c1, i) := GenI(l, cg);
    var (c2, j) := GenI(r, c1);
    var ins := IntCmp(c2.next, op, i, j);
    var k1, st1 := SimI(w, l, cg, c, st, env);
    var k2, st2 := SimI(w, r, c1, c, st1, env);
    HasIntKept(st1.top, st2.top, i, c1.next, EvalI(l, env), c2.next);
    var b := CmpVal(op, EvalI(l, env), EvalI(r, env));
    var st3 := IntStep(w.code, st.top.fn, c2, ins, st2, c, env, w.ext, BoolInt(b));
    hide Prefixes, HasInt, Good, SameFrame, SameSlots, Steps;
    ArrivesTrans(w.code, st, k1, st1, k2, st2, cg, c1, c2, c, env, w.ext);
    ArrivesTrans(w.code, st, k1 + k2, st2, 1, st3, cg, c2, Emit(Fresh(c2), ins), c, env, w.ext);
    k, st' := k1 + k2 + 1, st3;
  }

  /** Two strings are compared; `!=` negates. */
  lemma StrCmpDone(w: World, equal: bool, l: SExpr, r: SExpr, c2: CG, a: Reg, b: Reg, c: Ctx, st: State, env: Env,
                   va: SVal, vb: SVal)
    returns (k: nat, st': State)
    requires Good(c2, c, st, env, w.ext)
    requires Linked(w.code, st.top.fn, FinishStrCmp(equal, a, b, c2).0)
    requires Result(l, a, va, c2, st) && (l.SVar? ==> Readable(c, c2.moved, l.x))
    requires Result(r, b, vb, c2, st) && (r.SVar? ==> Readable(c, c2.moved, r.x))
    ensures Arrives(w.code, st, k, st', c2, FinishStrCmp(equal, a, b, c2).0, c, env, w.ext)
    ensures HasBool(st'.top, FinishStrCmp(equal, a, b, c2).1, FinishStrCmp(equal, a, b, c2).0.next, (va == vb) == equal)
  {
    hide Inv, Result, Readable, Keeps;
    var c3 := Emit(Fresh(c2), StringEquals(c2.next, a, b));
    LinkedBefore(w.code, st.top.fn, c3, FinishStrCmp(equal, a, b, c2).0);
    var s1 := EqualsDone(w, l, r, a, b, c2, c, st, env, va, vb);
    if equal {
      k, st' := 1, s1;
    } else {
      var i := NotBool(c3.next, Tmp(c2.next));
      st' := IntStep(w.code, st.top.fn, c3, i, s1, c, env, w.ext, BoolInt(va != vb));
      ArrivesTrans(w.code, st, 1, s1, 1, st', c2, c3, Emit(Fresh(c3), i), c, env, w.ext);
      k := 2;
    }
  }
}
