/**
 The emitted code runs like the source program. Each lemma follows one construct: given a
 machine state that matches, it computes how many steps the code takes and where they lead.
 */
module Simulation {
  import opened Source
  import opened Machine
  import opened Lowering
  import opened Ownership
  import opened Legality
  import opened Matching
  import opened SimExpr
  import opened Calls
  import opened SimSteps
  import opened SimScopes
  import opened SimStores
  import opened Runs

  lemma {:induction false} SimS(w: World, e: SExpr, cg: CG, c: Ctx, st: State, env: Env, n: nat)
    returns (k: nat, st': State)
    requires Good(cg, c, st, env, w.ext) && LegalS(w.p, e, cg.moved, c)
    requires Linked(w.code, st.top.fn, GenS(w.p, e, cg).0)
    requires Ready(w, c)
    ensures DoneS(w, e, cg, c, st, env, n, k, st')
    decreases n, 1, e, 1
  {
    hide Ready;
    match e
    case Lit(t) =>
      hide Linked, Inv;
      var i := CreateStatic(cg.next, t);
      k := 1;
      st' := AllocStep(w.code, st.top.fn, cg, i, t, st, c, env, w.ext);
      FreshTempResult(e, i, Text(t), cg, st');
    case SVar(x) =>
      hide Linked;
      k := 1;
      st' := LoadStep(w.code, st.top.fn, cg, x, st, c, env, w.ext);
    case Concat(_, _) =>
      k, st' := SimConcat(w, e, cg, c, st, env, n);
    case Call(_, _) =>
      k, st' := SimCall(w, e, cg, c, st, env, n);
  }

  lemma {:induction false} SimConcat(w: World, e: SExpr, cg: CG, c: Ctx, st: State, env: Env, n: nat)
    returns (k: nat, st': State)
    requires Good(cg, c, st, env, w.ext) && e.Concat? && LegalS(w.p, e, cg.moved, c)
    requires Linked(w.code, st.top.fn, GenS(w.p, e, cg).0)
    requires Ready(w, c)
    ensures DoneS(w, e, cg, c, st, env, n, k, st')
    decreases n, 1, e, 0
  {
    hide Ready, EvalS, GenS, Inv, Linked, Prefixes, MovesS, LegalS, Keeps, Steps, Result;
    var (c1, a) := GenS(w.p, e.left, cg);
    var (c2, b) := GenS(w.p, e.right, c1);
    ConcatLegal(w.p, e, cg.moved, c);
    EvalConcat(w.p, e, env, n);
    GenConcat(w.p, e, cg);
    var c3 := GenS(w.p, e, cg).0;
    LinkedBefore(w.code, st.top.fn, c2, c3);
    LinkedBefore(w.code, st.top.fn, c1, c2);
    var k1, s1 := SimS(w, e.left, cg, c, st, env, n);
    var k2, s2 := k1, s1;
    if EvalS(w.p, e.left, env, n).Val? {
      PairRight(w, e.left, e.right, cg, c, st, k1, s1, env, n);
      k2, s2 := SimS(w, e.right, c1, c, s1, env, n);
    }
    k2 := JoinPair(w, e.left, e.right, cg, c, st, k1, s1, k2, s2, env, n);
    if PairValue(w.p, e.left, e.right, env, n).Timeout? {
      k, st' := k2, s2;
    } else {
      var (va, vb) := PairValue(w.p, e.left, e.right, env, n).v;
      st' := ConcatDone(w, e.left, e.right, a, b, c2, c, s2, env, va, vb);
      ArrivesTrans(w.code, st, k2, s2, 1, st', cg, c2, c3, c, env, w.ext);
      k := k2 + 1;
    }
  }

  lemma {:induction false} SimArgs(w: World, es: seq<SExpr>, cg: CG, c: Ctx, st: State, env: Env, n: nat)
    returns (k: nat, st': State)
    requires Good(cg, c, st, env, w.ext) && LegalArgs(w.p, es, cg.moved, c)
    requires Linked(w.code, st.top.fn, GenArgs(w.p, es, cg).0)
    requires Ready(w, c)
    ensures DoneArgs(w, es, cg, c, st, env, n, k, st')
    decreases n, 1, es, 0
  {
    hide Ready, Inv, EvalS, GenS, MovesS, LegalS, Linked, Carries;
    if es == [] {
      k, st' := 0, st;
    } else {
      var init, last := es[..|es| - 1], es[|es| - 1];
      var (c1, rs) := GenArgs(w.p, init, cg);
      var c2 := GenS(w.p, last, c1).0;
      GenArgsLast(w.p, es, cg);
      EvalArgsLast(w.p, es, env, n);
      GenArgsMoves(w.p, init, cg);
      LinkedBefore(w.code, st.top.fn, c1, c2);
      assert LegalArgs(w.p, init, cg.moved, c) && LegalS(w.p, last, cg.moved + MovesArgs(w.p, init), c);
      hide GenArgs, EvalArgs, MovesArgs, LegalArgs, Prefixes, Steps;
      var k1, s1 := SimArgs(w, init, cg, c, st, env, n);
      if EvalArgs(w.p, init, env, n).Timeout? {
        k, st' := k1, s1;
      } else {
        var k2, s2 := SimS(w, last, c1, c, s1, env, n);
        k, st' := k1 + k2, s2;
        if EvalS(w.p, last, env, n).Timeout? {
          StillRunsLater(w.code, st, k1, s1, k2, n);
        } else {
          ArrivesTrans(w.code, st, k1, s1, k2, s2, cg, c1, c2, c, env, w.ext);
          ArgsReadyPush(w, init, last, rs, EvalArgs(w.p, init, env, n).v, c1, c2, s1, s2,
                        GenS(w.p, last, c1).1, EvalS(w.p, last, env, n).v);
          assert init + [last] == es;
        }
      }
    }
  }

  lemma {:induction false} SimCall(w: World, e: SExpr, cg: CG, c: Ctx, st: State, env: Env, n: nat)
    returns (k: nat, st': State)
    requires Good(cg, c, st, env, w.ext) && e.Call? && LegalS(w.p, e, cg.moved, c)
    requires Linked(w.code, st.top.fn, GenS(w.p, e, cg).0)
    requires Ready(w, c)
    ensures DoneS(w, e, cg, c, st, env, n, k, st')
    decreases n, 1, e, 0
  {
    hide Ready, Inv, LegalArgs, Linked, Carries, Steps, GenS, EvalS, GenArgs, EvalArgs, MovesArgs, Callable, Prefixes,
      Invoke, ArgsReady, Denotes, Keeps;
    var (c1, regs) := GenArgs(w.p, e.args, cg);
    GenArgsMoves(w.p, e.args, cg);
    GenCall(w.p, e, cg);
    EvalCall(w.p, e, env, n);
    LinkedBefore(w.code, st.top.fn, c1, GenS(w.p, e, cg).0);
    var k1, s1 := SimArgs(w, e.args, cg, c, st, env, n);
    if EvalArgs(w.p, e.args, env, n).Timeout? {
      k, st' := k1, s1;
    } else {
      var vs := EvalArgs(w.p, e.args, env, n).v;
      CallIsCallable(w, e, regs, vs, cg, c1, c, s1, env);
      LinkedSame(w.code, st.top.fn, EmitTemp(c1, CallFn(c1.next, e.f, regs)).0, GenS(w.p, e, cg).0);
      var k2;
      k2, st' := SimCalled(w, e, regs, vs, c1, c, s1, env, n);
      k := k1 + k2;
      if Invoke(w.p, e.f, vs, n).Timeout? {
        StillRunsLater(w.code, st, k1, s1, k2, n);
      } else {
        LeadsTrans(w.code, st, k1, s1, k2, st', cg.next, c1.next);
      }
    }
  }

  /** The call proper, from evaluated arguments to the result. */
  lemma {:induction false} SimCalled(w: World, e: SExpr, regs: seq<Reg>, vs: seq<SVal>, c1: CG, c: Ctx, st: State,
                                     env: Env, n: nat)
    returns (k: nat, st': State)
    requires e.Call? && e.f in c.callable && Callable(w, e.f, e.args, regs, vs, c1, c, st, env)
    requires Linked(w.code, st.top.fn, EmitTemp(c1, CallFn(c1.next, e.f, regs)).0)
    requires Ready(w, c)
    ensures
      var c2 := c1.(moved := c1.moved + OwnMoves(e.args, ParamsOf(w.p, e.f)));
      var c3 := EmitTemp(c2, CallFn(c2.next, e.f, regs)).0;
      match Invoke(w.p, e.f, vs, n)
      case Timeout => StillRuns(w.code, st, k, n)
      case Val(v) => Arrives(w.code, st, k, st', c1, c3, c, env, w.ext) && Result(e, c1.next, v, c3, st')
    decreases n, 0, 1
  {
    hide Inv, Linked, Carries, Steps, Invoke, LegalPart, Ready, Callable, Owns, Denotes, Held, Compile;
    RegsAreSet(w, e.f, e.args, regs, vs, c1, c, st, env);
    assert Compiled(w, c.exact, c.callable) by { ReadyIsCompiled(w, c); }
    hide Compiled;
    var objs := ArgObjs(st.top, regs);
    var w2 := w.(ext := AfterCall(w, e.f, e.args, c1, c, st.top));
    CallIsEnterable(w, e.f, e.args, regs, vs, c1, c, st, env);
    var s1 := CallPush(w, e.f, regs, c1, st);
    var k2, o, h := SimInvoke(w2, e.f, c1.next, objs, vs, s1, n, c.exact, c.callable);
    if Invoke(w.p, e.f, vs, n).Timeout? {
      StepsAdd(w.code, st, 1, k2);
      st' := s1;
    } else {
      st' := CallPop(w, e, CallFn(c1.next, e.f, regs), c1, OwnMoves(e.args, w.p[e.f].params), c, st, env, s1,
                     k2, o, h, Invoke(w.p, e.f, vs, n).v);
    }
    k := 1 + k2;
  }

  /** A called function either returns, or keeps running for as many steps as it has fuel. */
  lemma {:induction false} SimInvoke(w: World, g: nat, dst: Reg, objs: seq<Obj>, vs: seq<SVal>, st: State, n: nat,
                                     exact: bool, part: set<nat>)
    returns (k: nat, o: Obj, h: Heap)
    requires g in part && g < |w.p| && st.Running? && st.top == Entry(g, dst, objs)
    requires Enterable(w.p[g], objs, vs, st.heap, w.ext, exact)
    requires Compiled(w, exact, part)
    ensures
      match Invoke(w.p, g, vs, n)
      case Timeout => StillRuns(w.code, st, k, n - 1)
      case Val(v) => Returned(w, st, k, o, h, v, exact)
    decreases n, 0, 0
  {
    hide Compiled, Ready, LegalBlock, ExecBlock, Invoke, Prologue, Linked, GenBody, Steps, Inv, Flat, FunCtx, Owns,
      SameFrame, Keeps, GenBlock, Terminated, Enterable, Agrees, Good, Distinct, StillRuns, Returned, EntryEnv,
      OwnParams;
    k, o, h := 0, 0, st.heap;
    if n == 0 {
      InvokeNothing(w, g, vs, st);
    } else {
      EnterableArity(w.p[g], objs, vs, st.heap, w.ext, exact);
      var f := w.p[g];
      var cg, c := Prologue(f), FunCtx(f, exact, part);
      var env := EntryEnv(f, vs);
      FunctionParts(w, g, exact, part);
      InvokeParts(w.p, g, vs, n);
      var s1 := SimEntry(w, g, dst, objs, vs, st, exact, part);
      LeadsSame(w.code, st, |objs|, s1, 0);
      GoodIsOk(cg, At(cg, c), s1, env, w.ext);
      assert c.exact == exact && c.callable == part by { FunCtxExact(f, exact, part); }
      hide Leads;
      var r := SimBlock(w, f.body, cg, c, s1, env, n - 1);
      k, o, h := FromBody(w, g, c, st, |objs|, s1, r, env, n);
    }
  }

  lemma {:induction false} SimB(w: World, e: BExpr, cg: CG, c: Ctx, st: State, env: Env, n: nat)
    returns (k: nat, st': State)
    requires Good(cg, c, st, env, w.ext) && LegalB(w.p, e, cg.moved, c)
    requires Linked(w.code, st.top.fn, GenB(w.p, e, cg).0)
    requires Ready(w, c)
    ensures DoneB(w, e, cg, c, st, env, n, k, st', GenB(w.p, e, cg))
    decreases n, 1, e, 1
  {
    hide Ready, Linked, Inv, EvalS, GenS, Steps;
    match e
    case Truthy(i) => k, st' := SimI(w, i, cg, c, st, env);
    case Cmp(op, l, r) => k, st' := CmpDone(w, op, l, r, cg, c, st, env);
    case StrCmp(_, _, _) => k, st' := SimStrCmp(w, e, cg, c, st, env, n);
    case Logic(_, _, _) => k, st' := SimLogic(w, e, cg, c, st, env, n);
  }

  lemma {:induction false} SimStrCmp(w: World, e: BExpr, cg: CG, c: Ctx, st: State, env: Env, n: nat)
    returns (k: nat, st': State)
    requires Good(cg, c, st, env, w.ext) && e.StrCmp? && LegalB(w.p, e, cg.moved, c)
    requires Linked(w.code, st.top.fn, GenB(w.p, e, cg).0)
    requires Ready(w, c)
    ensures DoneB(w, e, cg, c, st, env, n, k, st', GenB(w.p, e, cg))
    decreases n, 1, e, 0
  {
    hide Ready, Linked, Inv, EvalS, GenS, EvalB, GenB, Steps, Prefixes, LegalB, FinishStrCmp, PairValue;
    var (c1, a) := GenS(w.p, e.sl, cg);
    var (c2, b) := GenS(w.p, e.sr, c1);
    StrCmpParts(w.p, e, cg, env, n, cg.moved, c);
    LinkedBefore(w.code, st.top.fn, c2, GenB(w.p, e, cg).0);
    LinkedBefore(w.code, st.top.fn, c1, c2);
    var k0, s0 := SimS(w, e.sl, cg, c, st, env, n);
    var k1, s1 := k0, s0;
    if EvalS(w.p, e.sl, env, n).Val? {
      PairRight(w, e.sl, e.sr, cg, c, st, k0, s0, env, n);
      k1, s1 := SimS(w, e.sr, c1, c, s0, env, n);
    }
    k1 := JoinPair(w, e.sl, e.sr, cg, c, st, k0, s0, k1, s1, env, n);
    if PairValue(w.p, e.sl, e.sr, env, n).Timeout? {
      k, st' := k1, s1;
    } else {
      var (va, vb) := PairValue(w.p, e.sl, e.sr, env, n).v;
      var k2;
      k2, st' := StrCmpDone(w, e.equal, e.sl, e.sr, c2, a, b, c, s1, env, va, vb);
      ArrivesTrans(w.code, st, k1, s1, k2, st', cg, c2, GenB(w.p, e, cg).0, c, env, w.ext);
      k := k1 + k2;
    }
  }

  lemma {:induction false} SimLogic(w: World, e: BExpr, cg: CG, c: Ctx, st: State, env: Env, n: nat)
    returns (k: nat, st': State)
    requires Good(cg, c, st, env, w.ext) && e.Logic? && LegalB(w.p, e, cg.moved, c)
    requires Linked(w.code, st.top.fn, GenB(w.p, e, cg).0)
    requires Ready(w, c)
    ensures DoneB(w, e, cg, c, st, env, n, k, st', GenB(w.p, e, cg))
    decreases n, 1, e, 0
  {
    hide Ready, Linked, Inv, EvalB, GenB, Steps, Prefixes, LegalB, OpenRight, CloseRight, JoinRight, MovesB,
      Keeps, Touches, HasBool;
    var (c1, v) := GenB(w.p, e.bl, cg);
    var c2 := OpenRight(c1, v, e.isAnd);
    var (c3, x) := GenB(w.p, e.br, c2);
    LogicParts(w.p, e, cg);
    LogicLegal(w.p, e, cg.moved, c);
    LogicLinks(w.code, st.top.fn, c1, c2, c3, x, e.isAnd);
    GenBMoves(w.p, e.bl, cg);
    GenBMoves(w.p, e.br, c2);
    EvalLogic(w.p, e, env, n);
    var k1, s1 := SimB(w, e.bl, cg, c, st, env, n);
    if EvalB(w.p, e.bl, env, n).Timeout? {
      k, st' := k1, s1;
    } else {
      var b := EvalB(w.p, e.bl, env, n).v;
      var s2 := SimOpenRight(w, v, b, e.isAnd, c1, c, s1, env);
      LeadsTrans(w.code, st, k1, s1, 2, s2, cg.next, c1.next);
      var k3;
      if b == e.isAnd {
        k3, st' := SimRight(w, e, c1, c2, c3, x, c, s2, env, n);
        if EvalB(w.p, e.br, env, n).Timeout? { StillRunsLater(w.code, st, k1 + 2, s2, k3, n); }
      } else {
        st' := SimSkip(w, c1, c2, c3, x, e.isAnd, b, c, s1, s2, env);
        k3 := 1;
      }
      k := k1 + 2 + k3;
      if EvalB(w.p, e, env, n).Val? {
        LeadsTrans(w.code, st, k1 + 2, s2, k3, st', cg.next, c1.next);
      }
    }
  }

  /** The edge that skips the right operand. */
  lemma SimSkip(w: World, c1: CG, c2: CG, c3: CG, x: Operand, isAnd: bool, b: bool, c: Ctx, st: State, s2: State, env: Env)
    returns (st': State)
    requires Shape(c1, c2, c3) && st.Running? && b != isAnd && c1.next < c2.next <= c3.next <= JoinRight(c1, c2, c3, x).next
    requires Reaches(w, st, 2, s2, c1.next, |c1.blocks| + 1, c1.moved, c1.temps, c1.next + 1, c, env) && s2.top.prev == c1.cur
    requires SameSlots(st.top, s2.top) && s2.top.fn == st.top.fn && c1.moved <= c3.moved && (c.exact ==> c1.moved == c3.moved)
    requires Linked(w.code, st.top.fn, CloseRight(c1, c2, c3, x, isAnd).0)
    ensures Leads(w.code, s2, 1, st', c1.next) && SameSlots(st.top, st'.top)
    ensures Good(CloseRight(c1, c2, c3, x, isAnd).0, c, st', env, w.ext)
    ensures HasBool(st'.top, CloseRight(c1, c2, c3, x, isAnd).1, CloseRight(c1, c2, c3, x, isAnd).0.next, b)
  {
    hide Linked, Inv, Steps, Prefixes, CloseRight, JoinRight, Keeps, HasBool;
    var next := JoinRight(c1, c2, c3, x).next;
    InvMoveMore(c1.moved, c3.moved, c1.temps, c1.next + 1, next, c, s2.top, s2.heap, env, w.ext);
    st' := SimPhi(w, c1, c2, c3, x, isAnd, b, c, s2, env);
    LeadsLess(w.code, s2, 1, st', next, c1.next);
  }

  /** The right operand, its flush, and the join. */
  lemma {:induction false} SimRight(w: World, e: BExpr, c1: CG, c2: CG, c3: CG, x: Operand, c: Ctx, st: State,
                                    env: Env, n: nat)
    returns (k: nat, st': State)
    requires e.Logic? && Shape(c1, c2, c3) && (c3, x) == GenB(w.p, e.br, c2) && c3.cur != c1.cur
    requires Good(c2, c, st, env, w.ext) && LegalB(w.p, e.br, c2.moved, c)
    requires c1.next <= c2.next <= c3.next <= JoinRight(c1, c2, c3, x).next
    requires Linked(w.code, st.top.fn, CloseRight(c1, c2, c3, x, e.isAnd).0)
    requires Ready(w, c)
    ensures
      var out := CloseRight(c1, c2, c3, x, e.isAnd);
      match EvalB(w.p, e.br, env, n)
      case Timeout => StillRuns(w.code, st, k, n)
      case Val(b) =>
        && Leads(w.code, st, k, st', c1.next) && SameSlots(st.top, st'.top)
        && Good(out.0, c, st', env, w.ext) && HasBool(st'.top, out.1, out.0.next, b)
    decreases n, 1, e.br, 2
  {
    hide Ready, Linked, Inv, EvalB, GenB, Steps, Prefixes, LegalB, OpenRight, CloseRight, JoinRight, Keeps, Touches,
      RightEnd;
    LogicLinks(w.code, st.top.fn, c1, c2, c3, x, e.isAnd);
    var k1, s1 := SimB(w, e.br, c2, c, st, env, n);
    if EvalB(w.p, e.br, env, n).Timeout? {
      k, st' := k1, s1;
    } else {
      var b := EvalB(w.p, e.br, env, n).v;
      var k2, s2 := SimRightEnd(w, c1, c2, c3, x, b, c, s1, env);
      JoinNext(c1, c2, c3, x);
      LeadsTrans(w.code, st, k1, s1, k2, s2, c2.next, c3.next);
      st' := SimPhi(w, c1, c2, c3, x, e.isAnd, b, c, s2, env);
      LeadsTrans(w.code, st, k1 + k2, s2, 1, st', c2.next, JoinRight(c1, c2, c3, x).next);
      LeadsLess(w.code, st, k1 + k2 + 1, st', c2.next, c1.next);
      k := k1 + k2 + 1;
    }
  }

  /** A condition to branch on. */
  lemma {:induction false} SimCond(w: World, e: BExpr, cg: CG, c: Ctx, st: State, env: Env, n: nat)
    returns (k: nat, st': State)
    requires Good(cg, c, st, env, w.ext) && LegalB(w.p, e, cg.moved, c)
    requires Linked(w.code, st.top.fn, GenCond(w.p, e, cg).0)
    requires Ready(w, c)
    ensures DoneB(w, e, cg, c, st, env, n, k, st', GenCond(w.p, e, cg))
    decreases n, 1, e, 3
  {
    hide Ready, Inv, EvalB, GenB, Steps, Prefixes, LegalB, Linked;
    var (c1, v) := GenB(w.p, e, cg);
    LinkedCond(w.code, st.top.fn, w.p, e, cg);
    var k1, s1 := SimB(w, e, cg, c, st, env, n);
    if e.Truthy? && EvalB(w.p, e, env, n).Val? {
      st' := NonZeroStep(w, c1, v, EvalB(w.p, e, env, n).v, c, s1, env);
      ArrivesTrans(w.code, st, k1, s1, 1, st', cg, c1, GenCond(w.p, e, cg).0, c, env, w.ext);
      k := k1 + 1;
    } else {
      EvalTruthy(w.p, e, env, n);
      k, st' := k1, s1;
    }
  }

  lemma {:induction false} SimDecl(w: World, s: Stmt, cg: CG, c: Ctx, st: State, env: Env, n: nat) returns (r: Run)
    requires s.DeclStr? && Begins(w, s, cg, c, st, env)
    requires Ready(w, c)
    ensures Agrees(w, Exec(w.p, s, env, n), n, st, r, cg, GenStmt(w.p, s, cg), At(cg, c), At(GenStmt(w.p, s, cg), c))
    decreases n, 1, s, 5
  {
    hide Ready, Inv, EvalS, GenS, Steps, LegalS, Linked, Exec, GenStmt, DeclTail, LegalStmt, MovesS, Readable, Denotes,
      Prefixes, Keeps, Carries, IsMove, Flat, SameFrame;
    DeclParts(w.p, s.x, s.init, cg, c);
    ExecSimple(w.p, s, env, n);
    ReadyAt(w, cg, c);
    var cd := Declare(cg, s.x);
    var (c1, a) := GenS(w.p, s.init, cd);
    LinkedBefore(w.code, st.top.fn, c1, GenStmt(w.p, s, cg));
    assert Good(cd, At(cg, c), st, env, w.ext);
    var k1, s1 := SimS(w, s.init, cd, At(cg, c), st, env, n);
    r := Run(k1, s1, 0, st.heap);
    if EvalS(w.p, s.init, env, n).Val? {
      var v := EvalS(w.p, s.init, env, n).v;
      LeadsSame(w.code, st, k1, s1, cg.next);
      var k2, s2 := SimDeclTail(w, s.x, s.init, a, v, c1, At(cg, c), s1, env);
      LeadsTrans(w.code, st, k1, s1, k2, s2, cg.next, c1.next);
      DeclLinks(w.code, st.top.fn, s.x, s.init, c1, a);
      r := Run(k1 + k2, s2, 0, st.heap);
    }
  }

  lemma {:induction false} SimAssign(w: World, s: Stmt, cg: CG, c: Ctx, st: State, env: Env, n: nat) returns (r: Run)
    requires s.AssignStr? && Begins(w, s, cg, c, st, env)
    requires Ready(w, c)
    ensures Agrees(w, Exec(w.p, s, env, n), n, st, r, cg, GenStmt(w.p, s, cg), At(cg, c), At(GenStmt(w.p, s, cg), c))
    decreases n, 1, s, 5
  {
    hide Ready, Inv, EvalS, GenS, Steps, LegalS, Linked, Exec, GenStmt, AssignTail, LegalStmt, MovesS, Readable, Denotes,
      Prefixes, Keeps, Carries, IsMove, Flat, SameFrame;
    AssignParts(w.p, s.x, s.rhs, cg, c);
    ExecSimple(w.p, s, env, n);
    ReadyAt(w, cg, c);
    var (c1, a) := GenS(w.p, s.rhs, cg);
    LinkedBefore(w.code, st.top.fn, c1, GenStmt(w.p, s, cg));
    var k1, s1 := SimS(w, s.rhs, cg, At(cg, c), st, env, n);
    r := Run(k1, s1, 0, st.heap);
    if EvalS(w.p, s.rhs, env, n).Val? {
      var v := EvalS(w.p, s.rhs, env, n).v;
      LeadsSame(w.code, st, k1, s1, cg.next);
      var k2, s2 := SimAssignTail(w, s.x, s.rhs, a, v, c1, At(cg, c), s1, env);
      LeadsTrans(w.code, st, k1, s1, k2, s2, cg.next, c1.next);
      AssignLinks(w.code, st.top.fn, s.x, s.rhs, c1, a);
      r := Run(k1 + k2, s2, 0, st.heap);
    }
  }

  lemma {:induction false} SimEval(w: World, s: Stmt, cg: CG, c: Ctx, st: State, env: Env, n: nat) returns (r: Run)
    requires s.Eval? && Begins(w, s, cg, c, st, env)
    requires Ready(w, c)
    ensures Agrees(w, Exec(w.p, s, env, n), n, st, r, cg, GenStmt(w.p, s, cg), At(cg, c), At(GenStmt(w.p, s, cg), c))
    decreases n, 1, s, 5
  {
    hide Ready, Inv, EvalS, GenS, Steps, LegalS, Linked, Exec, GenStmt, LegalStmt, Keeps, Carries, Flat, SameFrame;
    EvalParts(w.p, s.e, cg, c);
    ExecSimple(w.p, s, env, n);
    ReadyAt(w, cg, c);
    var k1, s1 := SimS(w, s.e, cg, At(cg, c), st, env, n);
    r := Run(k1, s1, 0, st.heap);
  }

  lemma {:induction false} SimReturn(w: World, s: Stmt, cg: CG, c: Ctx, st: State, env: Env, n: nat) returns (r: Run)
    requires s.Return? && Begins(w, s, cg, c, st, env)
    requires Ready(w, c)
    ensures Agrees(w, Exec(w.p, s, env, n), n, st, r, cg, GenStmt(w.p, s, cg), At(cg, c), At(GenStmt(w.p, s, cg), c))
    decreases n, 1, s, 5
  {
    hide Ready, Inv, EvalS, GenS, Steps, LegalS, Linked, Exec, GenStmt, ReturnTail, LegalStmt, MovesS, Readable, Denotes,
      Prefixes, Keeps, Carries, Flat, SameFrame, Owns;
    ReturnParts(w.p, s.e, cg, c);
    ExecSimple(w.p, s, env, n);
    ReadyAt(w, cg, c);
    var (c1, a) := GenS(w.p, s.e, cg);
    LinkedBefore(w.code, st.top.fn, c1, GenStmt(w.p, s, cg));
    var k1, s1 := SimS(w, s.e, cg, At(cg, c), st, env, n);
    r := Run(k1, s1, 0, st.heap);
    if EvalS(w.p, s.e, env, n).Val? {
      var v := EvalS(w.p, s.e, env, n).v;
      LeadsSame(w.code, st, k1, s1, cg.next);
      var k2, o, h := SimReturnTail(w, s.e, a, v, c1, c, s1, env);
      ReturnedLater(w, st, k1, s1, cg.next, k2, o, h, v, c.exact);
      r := Run(k1 + k2, s1, o, h);
    }
  }

  lemma {:induction false} SimIfCond(w: World, e: BExpr, cg: CG, c: Ctx, st: State, env: Env, n: nat)
    returns (k: nat, st': State)
    requires Good(cg, c, st, env, w.ext) && LegalB(w.p, e, cg.moved, c)
    requires Linked(w.code, st.top.fn, SplitIf(GenCond(w.p, e, cg).0, GenCond(w.p, e, cg).1))
    requires Ready(w, c)
    ensures Branches(w, e, cg, c, st, env, n, k, st')
    decreases n, 1, e, 4
  {
    hide Ready, Inv, EvalB, GenCond, Steps, LegalB, Linked, Prefixes, Keeps, HasBool, SplitIf, SameFrame;
    var (c1, v) := GenCond(w.p, e, cg);
    LinkedBefore(w.code, st.top.fn, c1, SplitIf(c1, v));
    k, st' := SimCond(w, e, cg, c, st, env, n);
    if EvalB(w.p, e, env, n).Val? {
      CondOpen(w.p, e, cg);
      var s1 := st';
      LeadsSame(w.code, st, k, s1, cg.next);
      var k2, s2 := SimSplit(w, c1, v, EvalB(w.p, e, env, n).v, c, s1, env);
      LeadsTrans(w.code, st, k, s1, k2, s2, cg.next, c1.next);
      k, st' := k + k2, s2;
    }
  }

  lemma {:induction false} SimIf(w: World, s: Stmt, cg: CG, c: Ctx, st: State, env: Env, n: nat) returns (r: Run)
    requires s.If? && Begins(w, s, cg, c, st, env)
    requires Ready(w, c)
    ensures Agrees(w, Exec(w.p, s, env, n), n, st, r, cg, GenStmt(w.p, s, cg), At(cg, c), At(GenStmt(w.p, s, cg), c))
    decreases n, 1, s, 8
  {
    hide Ready, Inv, EvalB, GenCond, Steps, LegalB, Linked, Exec, GenStmt, LegalStmt, MovesB, Flat, Reaches,
      LegalBlock, ThenStart, ThenEnd, ElseStart, ElseEnd, GenIf, ExecBlock, Terminated;
    IfLegal(w.p, s, cg, c);
    ExecIf(w.p, s, env, n);
    IfLinks(w.code, st.top.fn, w.p, s, cg);
    ReadyAt(w, cg, c);
    LinkedSplit(w, s, cg, st.top.fn);
    var k1, s1 := SimIfCond(w, s.cond, cg, At(cg, c), st, env, n);
    r := Run(k1, s1, 0, st.heap);
    if EvalB(w.p, s.cond, env, n).Val? {
      hide Good;
      r := SimBranch(w, s, cg, c, st, k1, s1, env, n, EvalB(w.p, s.cond, env, n).v);
    }
  }

  lemma BranchBegins(w: World, s: Stmt, cg: CG, c: Ctx, st: State, k0: nat, s1: State, env: Env, b: bool)
    requires s.If? && Begins(w, s, cg, c, st, env)
    requires
      var c1 := GenCond(w.p, s.cond, cg).0;
      Reaches(w, st, k0, s1, cg.next, if b then |c1.blocks| else |c1.blocks| + 1, c1.moved, [], c1.next, At(cg, c), env)
    ensures
      var cs := if b then ThenStart(w.p, s, cg) else ElseStart(w.p, s, cg);
      var body := if b then s.thn else s.els;
      && Ok(cg) && cg.scopes != [] && LegalStmt(w.p, s, cg, c) && st.Running? && s1.Running?
      && Leads(w.code, st, k0, s1, cg.next) && s1.top.fn == st.top.fn
      && Ok(cs) && cs.temps == [] && !Terminated(cs) && Good(cs, At(cs, c), s1, env, w.ext) && At(cs, c) == At(cg, c)
      && cs.loops == cg.loops && cg.next <= cs.next && (cg.loops.InLoop? ==> cs.moved == cg.moved)
      && LegalBlock(w.p, body, cs, c) && Linked(w.code, s1.top.fn, GenBlock(w.p, body, cs))
      && Linked(w.code, s1.top.fn, ThenEnd(w.p, s, cg)) && Linked(w.code, s1.top.fn, ElseEnd(w.p, s, cg))
  {
    hide Inv, GenCond, Steps, LegalB, Linked, GenStmt, LegalStmt, MovesB, Prefixes, Keeps, Flat,
      SameFrame, LegalBlock, ThenStart, ThenEnd, ElseStart, ElseEnd, GenIf, Denotes, Owns;
    IfLegal(w.p, s, cg, c);
    IfLinks(w.code, st.top.fn, w.p, s, cg);
    ThenPrefix(w.p, s, cg);
    GenCondMoves(w.p, s.cond, cg);
    LeadsSame(w.code, st, k0, s1, cg.next);
    BranchGood(w, s, cg, c, s1, env, b);
  }

  /** The chosen branch and the merge. */
  lemma {:induction false} SimBranch(w: World, s: Stmt, cg: CG, c: Ctx, st: State, k0: nat, s1: State, env: Env, n: nat,
                                     b: bool)
    returns (r: Run)
    requires s.If? && Begins(w, s, cg, c, st, env)
    requires
      var c1 := GenCond(w.p, s.cond, cg).0;
      Reaches(w, st, k0, s1, cg.next, if b then |c1.blocks| else |c1.blocks| + 1, c1.moved, [], c1.next, At(cg, c), env)
    requires Ready(w, c)
    ensures
      Agrees(w, ExecBlock(w.p, if b then s.thn else s.els, env, n), n, st, r, cg, GenStmt(w.p, s, cg), At(cg, c),
             At(GenStmt(w.p, s, cg), c))
    decreases n, 1, s, 7
  {
    hide Ready, Inv, GenCond, Steps, LegalB, Linked, GenStmt, LegalStmt, MovesB, Prefixes, Keeps, Flat, Begins,
      SameFrame, LegalBlock, ThenStart, ThenEnd, ElseStart, ElseEnd, GenIf, ExecBlock, Denotes, Owns, Reaches,
      Returned, StillRuns, Terminated, GenBlock, Good, Leads;
    BranchBegins(w, s, cg, c, st, k0, s1, env, b);
    var cs := if b then ThenStart(w.p, s, cg) else ElseStart(w.p, s, cg);
    var body := if b then s.thn else s.els;
    var rb := SimBlock(w, body, cs, c, s1, env, n);
    var out := ExecBlock(w.p, body, env, n);
    if out.Normal? {
      r := SimMerge(w, s, cg, c, s1, rb.k, rb.st, out.env, b);
      r := r.(k := k0 + r.k);
      LeadsTrans(w.code, st, k0, s1, r.k - k0, r.st, cg.next, cg.next);
    } else {
      hide Agrees;
      r := AgreesLater(w, out, n, st, k0, s1, rb, cg, cs, GenBlock(w.p, body, cs), GenStmt(w.p, s, cg), At(cg, c),
                       At(cg, c), At(GenStmt(w.p, s, cg), c));
    }
  }

  lemma {:induction false} SimBlock(w: World, ss: seq<Stmt>, cg: CG, c: Ctx, st: State, env: Env, n: nat)
    returns (r: Run)
    requires Ok(cg) && cg.temps == [] && !Terminated(cg) && Good(cg, At(cg, c), st, env, w.ext)
    requires LegalBlock(w.p, ss, cg, c) && Linked(w.code, st.top.fn, GenBlock(w.p, ss, cg))
    requires Ready(w, c)
    ensures Agrees(w, ExecBlock(w.p, ss, env, n), n, st, r, cg, GenBlock(w.p, ss, cg), At(cg, c), At(cg, c))
    decreases n, 1, ss, 3
  {
    hide Ready, Inv, Steps, Linked, Flat, SameFrame, GenStmts, GenBlock, Keeps, ExecBlock, LegalStmts, ReleaseVars, Owns,
      Denotes, Prefixes;
    GenBlockParts(w.p, ss, cg);
    FlatPush(cg.scopes);
    var c0 := PushScope(cg);
    var c1 := GenStmts(w.p, ss, c0);
    LinkedBefore(w.code, st.top.fn, c1, GenBlock(w.p, ss, cg));
    var rs := SimStmts(w, ss, c0, c, st, env, n);
    var out := ExecBlock(w.p, ss, env, n);
    if out.Normal? {
      LeadsSame(w.code, st, rs.k, rs.st, cg.next);
      r := SimBlockEnd(w, ss, cg, c, rs.st, out.env);
      LeadsTrans(w.code, st, rs.k, rs.st, r.k, r.st, cg.next, c1.next);
      r := r.(k := rs.k + r.k);
    } else {
      r := rs;
    }
  }

  lemma {:induction false} SimStmts(w: World, ss: seq<Stmt>, cg: CG, c: Ctx, st: State, env: Env, n: nat)
    returns (r: Run)
    requires Ok(cg) && cg.scopes != [] && cg.temps == [] && !Terminated(cg) && Good(cg, At(cg, c), st, env, w.ext)
    requires LegalStmts(w.p, ss, cg, c) && Linked(w.code, st.top.fn, GenStmts(w.p, ss, cg))
    requires Ready(w, c)
    ensures Agrees(w, ExecBlock(w.p, ss, env, n), n, st, r, cg, GenStmts(w.p, ss, cg), At(cg, c),
                   At(GenStmts(w.p, ss, cg), c))
    decreases n, 1, ss, 2
  {
    hide Ready, Inv, Steps, Linked, Flat, SameFrame, GenStmt, Keeps, Exec, LegalStmt, Prefixes, ExecBlock, GenStmts,
      LegalStmts, Agrees, Terminated, ReleaseTemps;
    if ss == [] {
      r := NoStmts(w, cg, c, st, env, n);
    } else {
      var s := ss[0];
      StmtsParts(w.p, ss, cg, c, env, n);
      var cs := GenStmt(w.p, s, cg);
      var c1, ce := ReleaseTemps(cs), GenStmts(w.p, ss, cg);
      LinkedBefore(w.code, st.top.fn, c1, ce);
      LinkedBefore(w.code, st.top.fn, cs, c1);
      var r1 := SimStmt(w, s, cg, c, st, env, n);
      if Exec(w.p, s, env, n).Normal? {
        var env1 := Exec(w.p, s, env, n).env;
        var k2, s2 := SimAfter(w, s, cg, c, st, r1, env, env1, n);
        ReadyAfter(w, s, c);
        r := SimStmts(w, ss[1..], c1, After(s, c), s2, env1, n);
        AfterNarrows(w.p, s, cg, ce, c);
        AgreesNarrow(w, ExecBlock(w.p, ss[1..], env1, n), n, s2, r, c1, ce, At(c1, After(s, c)), At(ce, After(s, c)),
                     At(cg, c), At(ce, c));
        r := AfterLater(w, ExecBlock(w.p, ss[1..], env1, n), n, st, r1.k + k2, s2, r, s, cg, ce, c);
      } else {
        r := r1;
        AgreesEarly(w, Exec(w.p, s, env, n), n, st, r, cg, cs, ce, At(cg, c), At(cs, After(s, c)), At(ce, c));
      }
    }
  }

  lemma NoStmts(w: World, cg: CG, c: Ctx, st: State, env: Env, n: nat) returns (r: Run)
    requires Ok(cg) && cg.scopes != [] && !Terminated(cg) && Good(cg, At(cg, c), st, env, w.ext)
    ensures Agrees(w, ExecBlock(w.p, [], env, n), n, st, r, cg, GenStmts(w.p, [], cg), At(cg, c),
                   At(GenStmts(w.p, [], cg), c))
  {
    hide Inv, Steps, Flat, SameFrame, Exec, GenStmt;
    r := Run(0, st, 0, st.heap);
    LeadsNowhere(w.code, st, cg.next);
  }

  lemma AgreesEarly(w: World, out: Outcome, n: nat, st: State, r: Run, cg: CG, cs: CG, ce: CG, c: Ctx, c1: Ctx, c2: Ctx)
    requires st.Running? && Ok(cs) && Ok(ce) && !out.Normal? && Agrees(w, out, n, st, r, cg, cs, c, c1)
    ensures Agrees(w, out, n, st, r, cg, ce, c, c2)
  {
    hide Inv, Steps, Flat, SameFrame, Reaches, Returned, StillRuns;
  }

  /** A statement that fell through, and the flush of its temporaries. */
  lemma SimAfter(w: World, s: Stmt, cg: CG, c: Ctx, st: State, r1: Run, env: Env, env1: Env, n: nat)
    returns (k2: nat, s2: State)
    requires Ok(cg) && cg.scopes != [] && st.Running?
    requires
      var cs := GenStmt(w.p, s, cg);
      && Agrees(w, Normal(env1), n, st, r1, cg, cs, At(cg, c), At(cs, After(s, c))) && cg.next <= cs.next
      && Linked(w.code, st.top.fn, ReleaseTemps(cs))
      && (!Terminated(cs) ==> ReleaseTemps(cs) == FlushSince(cs, 0) && !Terminated(FlushSince(cs, 0)))
    ensures
      var c1 := ReleaseTemps(GenStmt(w.p, s, cg));
      && Leads(w.code, st, r1.k + k2, s2, cg.next) && s2.Running? && s2.top.fn == st.top.fn
      && Good(c1, At(c1, After(s, c)), s2, env1, w.ext) && !Terminated(c1) && c1.temps == []
  {
    hide Inv, Steps, Linked, Flat, SameFrame, GenStmt, Keeps, Prefixes, EmitReleases;
    var cs := GenStmt(w.p, s, cg);
    LeadsSame(w.code, st, r1.k, r1.st, cg.next);
    k2, s2 := SimFlush(w, 0, cs, At(cs, After(s, c)), r1.st, env1);
    LeadsTrans(w.code, st, r1.k, r1.st, k2, s2, cg.next, cs.next);
    LeadsSame(w.code, r1.st, k2, s2, cs.next);
  }

  lemma {:induction false} SimStmt(w: World, s: Stmt, cg: CG, c: Ctx, st: State, env: Env, n: nat) returns (r: Run)
    requires Begins(w, s, cg, c, st, env)
    requires Ready(w, c)
    ensures Agrees(w, Exec(w.p, s, env, n), n, st, r, cg, GenStmt(w.p, s, cg), At(cg, c),
                   At(GenStmt(w.p, s, cg), After(s, c)))
    decreases n, 1, s, 9
  {
    hide Ready, Inv, Steps, Linked, Flat, SameFrame, GenStmt, Keeps, Exec, LegalStmt, Begins, Agrees;
    match s
    case DeclStr(_, _) => r := SimDecl(w, s, cg, c, st, env, n);
    case AssignStr(_, _) => r := SimAssign(w, s, cg, c, st, env, n);
    case DeclEmpty(_) =>
      NotEmpty(w, s, cg, c, st, env);
      assert false;
    case DeclInt(x, e) => r := SimInt(w, s, x, e, cg, c, st, env, n);
    case AssignInt(x, e) => r := SimInt(w, s, x, e, cg, c, st, env, n);
    case Eval(_) => r := SimEval(w, s, cg, c, st, env, n);
    case Return(_) => r := SimReturn(w, s, cg, c, st, env, n);
    case Break => r := SimJump(w, s, cg, c, st, env, n);
    case Continue => r := SimJump(w, s, cg, c, st, env, n);
    case Block(_) => r := SimNested(w, s, cg, c, st, env, n);
    case If(_, _, _) => r := SimIf(w, s, cg, c, st, env, n);
    case While(_, _) => r := SimWhile(w, s, cg, c, st, env, n);
    case ForRange(_, _, _, _) => r := SimRange(w, s, cg, c, st, env, n);
    case Forever(_) => r := SimForever(w, s, cg, c, st, env, n);
  }

  lemma NotEmpty(w: World, s: Stmt, cg: CG, c: Ctx, st: State, env: Env)
    requires Begins(w, s, cg, c, st, env)
    ensures !s.DeclEmpty?
  {
  }

  lemma {:induction false} SimNested(w: World, s: Stmt, cg: CG, c: Ctx, st: State, env: Env, n: nat) returns (r: Run)
    requires s.Block? && Begins(w, s, cg, c, st, env)
    requires Ready(w, c)
    ensures Agrees(w, Exec(w.p, s, env, n), n, st, r, cg, GenStmt(w.p, s, cg), At(cg, c), At(GenStmt(w.p, s, cg), c))
    decreases n, 1, s, 8
  {
    hide Ready, Inv, Steps, Linked, Flat, GenStmt, Exec, LegalStmt, Agrees, LegalBlock, ExecBlock, GenBlock;
    NestedParts(w.p, s, cg, c, env, n);
    r := SimBlock(w, s.body, cg, c, st, env, n);
  }

  lemma {:induction false} SimTurn(w: World, ss: seq<Stmt>, ws: CG, c: Ctx, st: State, env: Env, n: nat)
    returns (r: Run)
    requires Ok(ws) && ws.temps == [] && ws.loops.InLoop? && !Terminated(ws) && Good(ws, At(ws, c), st, env, w.ext)
    requires LegalBlock(w.p, ss, ws, c) && Outside(At(ws, c)) == At(ws, c)
    requires Linked(w.code, st.top.fn, JoinTo(GenBlock(w.p, ss, ws), ws.loops.continueTo))
    requires Ready(w, c)
    ensures Turns(w, ExecBlock(w.p, ss, env, n), n, st, r, ws, At(ws, c))
    decreases n, 1, ss, 4
  {
    hide Ready, Inv, Steps, Linked, Flat, SameFrame, GenBlock, Keeps, LegalBlock, JoinTo, Terminated, Prefixes,
      StillRuns, Returned, ExecBlock;
    var ce := GenBlock(w.p, ss, ws);
    BlockParts(w.p, ss, ws, c, ws.loops.continueTo);
    LinkedBefore(w.code, st.top.fn, ce, JoinTo(ce, ws.loops.continueTo));
    r := SimBlock(w, ss, ws, c, st, env, n);
    var out := ExecBlock(w.p, ss, env, n);
    if out.Normal? {
      LeadsSame(w.code, st, r.k, r.st, ws.next);
      var s2 := SimJoin(w, ce, ws.loops.continueTo, At(ws, c), r.st, out.env);
      LeadsTrans(w.code, st, r.k, r.st, 1, s2, ws.next, ce.next);
      InvNoTemps(ws.moved, ce.next, 0, At(ws, c), s2.top, s2.heap, out.env, w.ext);
      r := Run(r.k + 1, s2, 0, s2.heap);
    }
  }

  lemma {:induction false} SimWhileTest(w: World, s: Stmt, cg: CG, c: Ctx, st: State, env: Env, n: nat)
    returns (k: nat, st': State)
    requires s.While? && AtHead(w, s, cg, c, st, env)
    requires Ready(w, c)
    ensures Tested(w, s.cond, cg, At(cg, c), st, env, n, k, st')
    decreases n, 1, s, 5
  {
    hide Ready, Inv, EvalB, GenCond, Steps, LegalB, Linked, GenStmt, LegalStmt, Flat, Keeps, HasBool, SameFrame,
      WhileStart, GenWhile, OpenWhile, EnterWhile, StillRuns, Terminated, Prefixes;
    WhileShape(w.p, s, cg, c);
    WhileLinks(w.code, st.top.fn, w.p, s, cg);
    ReadyAt(w, cg, c);
    OpenGood(w, cg, At(cg, c), st, env);
    var (c2, v) := GenCond(w.p, s.cond, OpenWhile(cg));
    k, st' := SimCond(w, s.cond, OpenWhile(cg), At(cg, c), st, env, n);
    if EvalB(w.p, s.cond, env, n).Val? {
      CondOpen(w.p, s.cond, OpenWhile(cg));
      var s1 := st';
      LeadsSame(w.code, st, k, s1, OpenWhile(cg).next);
      var k2, s2 := SimLoopTest(w, c2, v, EvalB(w.p, s.cond, env, n).v, |cg.blocks|, At(cg, c), s1, env);
      LeadsTrans(w.code, st, k, s1, k2, s2, OpenWhile(cg).next, c2.next);
      LeadsLess(w.code, st, k + k2, s2, OpenWhile(cg).next, cg.next);
      MovedOn(w.code, st, k + k2, s2, cg.next);
      InvNoTemps(c2.moved, c2.next, 0, At(cg, c), s2.top, s2.heap, env, w.ext);
      k, st' := k + k2, s2;
    }
  }

  lemma {:induction false} SimWhileLoop(w: World, s: Stmt, cg: CG, c: Ctx, st: State, env: Env, n: nat) returns (r: Run)
    requires s.While? && AtHead(w, s, cg, c, st, env)
    requires Ready(w, c)
    ensures Agrees(w, Exec(w.p, s, env, n), n, st, r, cg, GenStmt(w.p, s, cg), At(cg, c), At(cg, c))
    decreases n, 1, s, 7
  {
    hide Ready, Inv, EvalB, Steps, Linked, GenStmt, LegalStmt, Flat, Keeps, SameFrame, WhileStart, GenWhile, StillRuns,
      Agrees, Exec, ExecBlock, Terminated, LegalB, LegalBlock;
    var ce := GenStmt(w.p, s, cg);
    if n == 0 {
      r := NoFuel(w, s, cg, ce, At(cg, c), st, env);
    } else {
      ExecWhile(w.p, s, env, n);
      WhileShape(w.p, s, cg, c);
      var k1, s1 := SimWhileTest(w, s, cg, c, st, env, n);
      if EvalB(w.p, s.cond, env, n).Timeout? {
        r := Run(k1, s1, 0, st.heap);
        TimeoutAgrees(w, n, st, r, cg, ce, At(cg, c));
      } else if !EvalB(w.p, s.cond, env, n).v {
        r := LoopExit(w, n, st, k1, s1, cg.next, 0, cg, ce, At(cg, c), At(cg, c), env);
      } else {
        r := SimWhileBody(w, s, cg, c, st, k1, s1, env, n);
      }
    }
  }

  lemma {:induction false} SimWhileBody(w: World, s: Stmt, cg: CG, c: Ctx, st: State, k1: nat, s1: State, env: Env, n: nat)
    returns (r: Run)
    requires s.While? && AtHead(w, s, cg, c, st, env) && n > 0
    requires Reaches(w, st, k1, s1, cg.next, |cg.blocks| + 1, cg.moved, [], 0, At(cg, c), env)
    requires Ready(w, c)
    ensures
      var out := match ExecBlock(w.p, s.body, env, n)
        case Normal(env1) => Exec(w.p, s, env1, n - 1)
        case Cont(env1) => Exec(w.p, s, env1, n - 1)
        case Brk(env1) => Normal(env1)
        case o => o;
      Agrees(w, out, n, st, r, cg, GenStmt(w.p, s, cg), At(cg, c), At(cg, c))
    decreases n, 1, s, 6
  {
    hide Ready, Inv, Steps, Linked, GenStmt, LegalStmt, Flat, Keeps, SameFrame, WhileStart, GenWhile, StillRuns,
      Agrees, Exec, ExecBlock, Terminated, LegalB, LegalBlock, GenCond, EnterWhile, OpenWhile, JoinTo;
    WhileShape(w.p, s, cg, c);
    WhileLinks(w.code, st.top.fn, w.p, s, cg);
    LeadsSame(w.code, st, k1, s1, cg.next);
    WhileBodyGood(w, s, cg, c, s1, env);
    var ws, ce := WhileStart(w.p, s, cg), GenStmt(w.p, s, cg);
    ReadyInside(w, cg, c);
    var rb := SimTurn(w, s.body, ws, Inside(cg, c), s1, env, n);
    var out := ExecBlock(w.p, s.body, env, n);
    if out.Normal? || out.Cont? {
      LeadsLess(w.code, s1, rb.k, rb.st, ws.next, cg.next);
      LeadsTrans(w.code, st, k1, s1, rb.k, rb.st, cg.next, cg.next);
      LeadsSame(w.code, st, k1 + rb.k, rb.st, cg.next);
      InvInside(cg.moved, 0, cg, c, rb.st.top, rb.st.heap, out.env, w.ext);
      r := SimWhileLoop(w, s, cg, c, rb.st, out.env, n - 1);
      r := AgainLater(w, Exec(w.p, s, out.env, n - 1), n, st, k1 + rb.k, rb.st, r, cg, ce, At(cg, c));
    } else {
      r := TurnLeaves(w, out, n, st, k1, s1, rb, ws, cg, ce, At(cg, Inside(cg, c)), At(cg, c));
    }
  }

  lemma {:induction false} SimWhile(w: World, s: Stmt, cg: CG, c: Ctx, st: State, env: Env, n: nat) returns (r: Run)
    requires s.While? && Begins(w, s, cg, c, st, env)
    requires Ready(w, c)
    ensures Agrees(w, Exec(w.p, s, env, n), n, st, r, cg, GenStmt(w.p, s, cg), At(cg, c), At(GenStmt(w.p, s, cg), c))
    decreases n, 1, s, 8
  {
    hide Ready, Inv, Steps, Linked, GenStmt, LegalStmt, Flat, Keeps, SameFrame, WhileStart, GenWhile, StillRuns,
      Agrees, Exec, LegalB, LegalBlock, GenCond, EnterWhile, OpenWhile, JoinTo;
    WhileShape(w.p, s, cg, c);
    WhileLinks(w.code, st.top.fn, w.p, s, cg);
    var s1 := SimOpen(w, cg, At(cg, c), st, env);
    LeadsSame(w.code, st, 1, s1, cg.next);
    r := SimWhileLoop(w, s, cg, c, s1, env, n);
    r := SameLater(w, Exec(w.p, s, env, n), n, st, 1, s1, r, cg, GenStmt(w.p, s, cg), At(cg, c));
  }

  lemma {:induction false} SimRangeLoop(w: World, s: Stmt, cg: CG, c: Ctx, st: State, env: Env, n: nat, hi: int)
    returns (r: Run)
    requires s.ForRange? && AtTest(w, s, cg, c, st, env, hi)
    requires Ready(w, c)
    ensures Agrees(w, ExecRange(w.p, s.ix, hi, s.body, env, n), n, st, r, cg, GenStmt(w.p, s, cg), At(cg, c), At(cg, c))
    decreases n, 1, s, 7
  {
    hide Ready, Inv, Steps, Linked, GenStmt, LegalStmt, Flat, Keeps, SameFrame, RangeStart, GenRange, StillRuns,
      Agrees, ExecRange, ExecBlock, Terminated, LegalBlock, LegalI, EvalI, Bump, Bounds, Counting, HasInt, RangeJoin;
    var ce := GenStmt(w.p, s, cg);
    ExecRangeParts(w.p, s.ix, hi, s.body, env, n);
    if n == 0 {
      r := RangeTimeout(w, s, cg, ce, At(cg, c), st, env, hi);
    } else {
      RangeLegal(w.p, s, cg, c);
      RangeEnd(w.p, s, cg, c);
      CountingFacts(w, s, cg, c);
      BoundsNext(s, cg);
      var s1 := SimRangeRound(w, s, cg, c, st, env, hi);
      if EvalI(IVar(s.ix), env) < hi {
        r := SimRangeBody(w, s, cg, c, st, s1, env, n, hi);
      } else {
        r := LoopExit(w, n, st, 3, s1, Bounds(s.lo, s.hi, cg).0.next, 0, cg, ce, At(cg, Counting(s, c)), At(cg, c), env);
      }
    }
  }

  lemma RangeBodyBegins(w: World, s: Stmt, cg: CG, c: Ctx, st: State, s1: State, env: Env, hi: int)
    requires s.ForRange? && AtTest(w, s, cg, c, st, env, hi)
    requires Reaches(w, st, 3, s1, Bounds(s.lo, s.hi, cg).0.next, |cg.blocks| + 1, cg.moved, [], 0,
                     At(cg, Counting(s, c)), env)
    requires Ready(w, c)
    ensures
      var ws, cx := RangeStart(s, cg), Inside(cg, Counting(s, c));
      && Ok(ws) && ws.temps == [] && ws.loops.InLoop? && Good(ws, At(ws, cx), s1, env, w.ext) && !Terminated(ws)
      && AtLoop(ws, cg, Counting(s, c)) && LegalBlock(w.p, s.body, ws, cx) && Ready(w, cx) && s1.Running?
      && Linked(w.code, s1.top.fn, JoinTo(GenBlock(w.p, s.body, ws), ws.loops.continueTo))
      && Leads(w.code, st, 3, s1, Bounds(s.lo, s.hi, cg).0.next)
  {
    hide Ready, Inv, Steps, Linked, GenStmt, LegalStmt, Flat, Keeps, SameFrame, RangeStart, GenRange, StillRuns,
      Agrees, Terminated, LegalBlock, LegalI, Bounds, Counting, HasInt, NextRound, GenBlock, JoinTo, Prefixes, Spares;
    RangeLegal(w.p, s, cg, c);
    RangeShape(w.p, s, cg);
    RangeEnd(w.p, s, cg, c);
    CountingFacts(w, s, cg, c);
    BoundsNext(s, cg);
    RangeLinks(w.code, st.top.fn, w.p, s, cg, c);
    LeadsSame(w.code, st, 3, s1, Bounds(s.lo, s.hi, cg).0.next);
    ReadyInside(w, cg, Counting(s, c));
    RangeBodyGood(w, s, cg, c, s1, env);
  }

  lemma {:induction false} SimRangeBody(w: World, s: Stmt, cg: CG, c: Ctx, st: State, s1: State, env: Env, n: nat, hi: int)
    returns (r: Run)
    requires s.ForRange? && AtTest(w, s, cg, c, st, env, hi) && n > 0
    requires Reaches(w, st, 3, s1, Bounds(s.lo, s.hi, cg).0.next, |cg.blocks| + 1, cg.moved, [], 0,
                     At(cg, Counting(s, c)), env)
    requires Ready(w, c)
    ensures
      var out := match ExecBlock(w.p, s.body, env, n)
        case Normal(env1) => ExecRange(w.p, s.ix, hi, s.body, Bump(env1, s.ix), n - 1)
        case Cont(env1) => ExecRange(w.p, s.ix, hi, s.body, Bump(env1, s.ix), n - 1)
        case Brk(env1) => Normal(env1)
        case o => o;
      Agrees(w, out, n, st, r, cg, GenStmt(w.p, s, cg), At(cg, c), At(cg, c))
    decreases n, 1, s, 6
  {
    hide Ready, Inv, Steps, Linked, GenStmt, LegalStmt, Flat, Keeps, SameFrame, RangeStart, GenRange, StillRuns,
      Agrees, ExecRange, ExecBlock, Terminated, LegalBlock, LegalI, EvalI, Bump, Bounds, Counting, HasInt, NextRound,
      Good, Leads, Turns, Returned, Reaches, AtTest, GenBlock, JoinTo;
    RangeBodyBegins(w, s, cg, c, st, s1, env, hi);
    var rb := SimTurn(w, s.body, RangeStart(s, cg), Inside(cg, Counting(s, c)), s1, env, n);
    r := SimRangeAgain(w, s, cg, c, st, s1, rb, env, n, hi);
  }

  lemma {:induction false} SimRangeAgain(w: World, s: Stmt, cg: CG, c: Ctx, st: State, s1: State, rb: Run, env: Env,
                                         n: nat, hi: int)
    returns (r: Run)
    requires s.ForRange? && AtTest(w, s, cg, c, st, env, hi) && n > 0
    requires Leads(w.code, st, 3, s1, Bounds(s.lo, s.hi, cg).0.next)
    requires Turns(w, ExecBlock(w.p, s.body, env, n), n, s1, rb, RangeStart(s, cg), At(cg, Inside(cg, Counting(s, c))))
    requires Ready(w, c)
    ensures
      var out := match ExecBlock(w.p, s.body, env, n)
        case Normal(env1) => ExecRange(w.p, s.ix, hi, s.body, Bump(env1, s.ix), n - 1)
        case Cont(env1) => ExecRange(w.p, s.ix, hi, s.body, Bump(env1, s.ix), n - 1)
        case Brk(env1) => Normal(env1)
        case o => o;
      Agrees(w, out, n, st, r, cg, GenStmt(w.p, s, cg), At(cg, c), At(cg, c))
    decreases n, 1, s, 5
  {
    hide Ready, Inv, Steps, Linked, GenStmt, LegalStmt, Flat, Keeps, SameFrame, RangeStart, GenRange, StillRuns,
      Agrees, ExecRange, ExecBlock, Terminated, LegalBlock, LegalI, EvalI, Bump, Bounds, Counting, HasInt, Returned;
    var m := Bounds(s.lo, s.hi, cg).0.next;
    var ws, ce := RangeStart(s, cg), GenStmt(w.p, s, cg);
    RangeLegal(w.p, s, cg, c);
    RangeShape(w.p, s, cg);
    RangeEnd(w.p, s, cg, c);
    CountingFacts(w, s, cg, c);
    BoundsNext(s, cg);
    var out := ExecBlock(w.p, s.body, env, n);
    if out.Normal? || out.Cont? {
      LeadsTrans(w.code, st, 3, s1, rb.k, rb.st, m, ws.next);
      InvInside(cg.moved, 0, cg, Counting(s, c), rb.st.top, rb.st.heap, out.env, w.ext);
      var s3 := SimRangeNext(w, s, cg, c, st, 3 + rb.k, rb.st, env, out.env, hi);
      r := SimRangeLoop(w, s, cg, c, s3, Bump(out.env, s.ix), n - 1, hi);
      r := AgainLater(w, ExecRange(w.p, s.ix, hi, s.body, Bump(out.env, s.ix), n - 1), n, st, 3 + rb.k + 4, s3, r, cg, ce,
                      At(cg, c));
    } else {
      LeadsLess(w.code, st, 3, s1, m, cg.next);
      r := TurnLeaves(w, out, n, st, 3, s1, rb, ws, cg, ce, At(cg, Inside(cg, Counting(s, c))), At(cg, c));
    }
  }

  lemma {:induction false} SimRange(w: World, s: Stmt, cg: CG, c: Ctx, st: State, env: Env, n: nat) returns (r: Run)
    requires s.ForRange? && Begins(w, s, cg, c, st, env)
    requires Ready(w, c)
    ensures Agrees(w, Exec(w.p, s, env, n), n, st, r, cg, GenStmt(w.p, s, cg), At(cg, c), At(GenStmt(w.p, s, cg), c))
    decreases n, 1, s, 8
  {
    hide Ready, Inv, Steps, Linked, GenStmt, LegalStmt, Flat, Keeps, SameFrame, RangeStart, GenRange, StillRuns,
      Agrees, Exec, ExecRange, LegalBlock, LegalI, EvalI;
    var env1 := env.(ints := env.ints[s.ix := EvalI(s.lo, env)]);
    ExecForRange(w.p, s, env, n);
    RangeEnd(w.p, s, cg, c);
    RangeLegal(w.p, s, cg, c);
    var k1, s1 := SimRangeStart(w, s, cg, c, st, env);
    hide AtTest;
    r := SimRangeLoop(w, s, cg, c, s1, env1, n, EvalI(s.hi, env));
    r := SameLater(w, Exec(w.p, s, env, n), n, st, k1, s1, r, cg, GenStmt(w.p, s, cg), At(cg, c));
  }

  lemma {:induction false} SimForeverLoop(w: World, s: Stmt, cg: CG, c: Ctx, st: State, env: Env, n: nat) returns (r: Run)
    requires s.Forever? && AtHead(w, s, cg, c, st, env)
    requires Ready(w, c)
    ensures Agrees(w, Exec(w.p, s, env, n), n, st, r, cg, GenStmt(w.p, s, cg), At(cg, c), At(cg, c))
    decreases n, 1, s, 7
  {
    hide Ready, Inv, Steps, Linked, GenStmt, LegalStmt, Flat, Keeps, SameFrame, EnterForever, GenForever, StillRuns,
      Agrees, Exec, ExecBlock, Terminated, LegalBlock, JoinTo, Returned;
    var ws, ce := EnterForever(cg), GenStmt(w.p, s, cg);
    if n == 0 {
      r := NoFuel(w, s, cg, ce, At(cg, c), st, env);
    } else {
      ExecForever(w.p, s, env, n);
      ForeverShape(w.p, s, cg, c);
      ForeverLinks(w.code, st.top.fn, w.p, s, cg);
      ForeverBodyGood(w, s, cg, c, st, env);
      ReadyInside(w, cg, c);
      var rb := SimTurn(w, s.body, ws, Inside(cg, c), st, env, n);
      var out := ExecBlock(w.p, s.body, env, n);
      if out.Normal? || out.Cont? {
        LeadsLess(w.code, st, rb.k, rb.st, ws.next, cg.next);
        LeadsSame(w.code, st, rb.k, rb.st, cg.next);
        InvInside(cg.moved, 0, cg, c, rb.st.top, rb.st.heap, out.env, w.ext);
        r := SimForeverLoop(w, s, cg, c, rb.st, out.env, n - 1);
        r := AgainLater(w, Exec(w.p, s, out.env, n - 1), n, st, rb.k, rb.st, r, cg, ce, At(cg, c));
      } else {
        LeadsNowhere(w.code, st, cg.next);
        r := TurnLeaves(w, out, n, st, 0, st, rb, ws, cg, ce, At(cg, Inside(cg, c)), At(cg, c));
      }
    }
  }

  lemma {:induction false} SimForever(w: World, s: Stmt, cg: CG, c: Ctx, st: State, env: Env, n: nat) returns (r: Run)
    requires s.Forever? && Begins(w, s, cg, c, st, env)
    requires Ready(w, c)
    ensures Agrees(w, Exec(w.p, s, env, n), n, st, r, cg, GenStmt(w.p, s, cg), At(cg, c), At(GenStmt(w.p, s, cg), c))
    decreases n, 1, s, 8
  {
    hide Ready, Inv, Steps, Linked, GenStmt, LegalStmt, Flat, Keeps, SameFrame, EnterForever, GenForever, StillRuns,
      Agrees, Exec, LegalBlock, JoinTo;
    ForeverShape(w.p, s, cg, c);
    ForeverLinks(w.code, st.top.fn, w.p, s, cg);
    var s1 := SimEnterForever(w, cg, At(cg, c), st, env);
    LeadsSame(w.code, st, 1, s1, cg.next);
    r := SimForeverLoop(w, s, cg, c, s1, env, n);
    r := SameLater(w, Exec(w.p, s, env, n), n, st, 1, s1, r, cg, GenStmt(w.p, s, cg), At(cg, c));
  }
}
