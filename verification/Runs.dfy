/**
 What it means that emitted code runs like its source, construct by construct, and the facts
 about each construct that the simulation in module Simulation puts together.
 */
module Runs {
  import opened Source
  import opened Machine
  import opened Lowering
  import opened Ownership
  import opened Legality
  import opened Matching
  import opened SimExpr
  import opened Calls
  import opened SimSteps
  import opened SimScopes
  import opened SimStores

  ghost predicate Ready(w: World, c: Ctx) {
    Compiled(w, c.exact, c.callable) && forall x :: x in c.borrowed ==> !x.own
  }

  // ---- Strings ----

  /** The code of `e` computes the value of `e`, or keeps running while `e` is not done. */
  ghost predicate DoneS(w: World, e: SExpr, cg: CG, c: Ctx, st: State, env: Env, n: nat, k: nat, st': State)
    requires Ok(cg)
  {
    match EvalS(w.p, e, env, n)
    case Timeout => StillRuns(w.code, st, k, n)
    case Val(v) =>
      && Arrives(w.code, st, k, st', cg, GenS(w.p, e, cg).0, c, env, w.ext)
      && Result(e, GenS(w.p, e, cg).1, v, GenS(w.p, e, cg).0, st')
  }

  /** Two operands, left to right. */
  function PairValue(p: Program, l: SExpr, r: SExpr, env: Env, n: nat): Out<(SVal, SVal)> {
    match EvalS(p, l, env, n)
    case Timeout => Timeout
    case Val(a) =>
      match EvalS(p, r, env, n)
      case Timeout => Timeout
      case Val(b) => Val((a, b))
  }

  lemma EvalConcat(p: Program, e: SExpr, env: Env, n: nat)
    requires e.Concat?
    ensures EvalS(p, e, env, n)
         == match PairValue(p, e.left, e.right, env, n)
            case Timeout => Timeout
            case Val((a, b)) => Val(Text(Chars(a) + Chars(b)))
  {
  }

  lemma ConcatLegal(p: Program, e: SExpr, moved: set<Var>, c: Ctx)
    requires e.Concat? && LegalS(p, e, moved, c)
    ensures LegalS(p, e.left, moved, c) && LegalS(p, e.right, moved + MovesS(p, e.left), c)
    ensures StaysPut(e.left, MovesS(p, e.right))
  {
  }

  lemma GenConcat(p: Program, e: SExpr, cg: CG)
    requires Ok(cg) && e.Concat?
    ensures
      var (c1, a) := GenS(p, e.left, cg);
      var (c2, b) := GenS(p, e.right, c1);
      && GenS(p, e, cg) == EmitTemp(c2, ConcatStr(c2.next, a, b))
      && Prefixes(c2.blocks, GenS(p, e, cg).0.blocks) && c1.next <= c2.next && cg.next <= c1.next
  {
  }

  ghost predicate DonePair(w: World, l: SExpr, r: SExpr, cg: CG, c: Ctx, st: State, env: Env, n: nat, k: nat, st': State)
    requires Ok(cg)
  {
    var (c1, a) := GenS(w.p, l, cg);
    var (c2, b) := GenS(w.p, r, c1);
    match PairValue(w.p, l, r, env, n)
    case Timeout => StillRuns(w.code, st, k, n)
    case Val((va, vb)) =>
      && Arrives(w.code, st, k, st', cg, c2, c, env, w.ext)
      && Result(l, a, va, c2, st') && (l.SVar? ==> Readable(c, c2.moved, l.x))
      && Result(r, b, vb, c2, st') && (r.SVar? ==> Readable(c, c2.moved, r.x))
  }

  lemma VarIsReadable(p: Program, e: SExpr, moved: set<Var>, c: Ctx)
    requires LegalS(p, e, moved, c) && e.SVar?
    ensures Readable(c, moved, e.x) && MovesS(p, e) == {}
  {
  }

  /** The right operand may be evaluated after the left one. */
  lemma PairRight(w: World, l: SExpr, r: SExpr, cg: CG, c: Ctx, st: State, k1: nat, s1: State, env: Env, n: nat)
    requires Good(cg, c, st, env, w.ext) && LegalS(w.p, r, cg.moved + MovesS(w.p, l), c)
    requires Linked(w.code, st.top.fn, GenS(w.p, r, GenS(w.p, l, cg).0).0)
    requires DoneS(w, l, cg, c, st, env, n, k1, s1) && EvalS(w.p, l, env, n).Val?
    ensures
      var c1 := GenS(w.p, l, cg).0;
      && Good(c1, c, s1, env, w.ext) && LegalS(w.p, r, c1.moved, c) && Linked(w.code, s1.top.fn, GenS(w.p, r, c1).0)
  {
    hide Inv, EvalS, GenS, MovesS, LegalS, Linked, Steps, Keeps;
    GenSMoves(w.p, l, cg);
  }

  /** Both operands were evaluated, or one of them is not done. */
  lemma JoinPair(w: World, l: SExpr, r: SExpr, cg: CG, c: Ctx, st: State, k1: nat, s1: State, k2: nat, s2: State, env: Env,
                 n: nat)
    returns (k: nat)
    requires Good(cg, c, st, env, w.ext)
    requires LegalS(w.p, l, cg.moved, c) && LegalS(w.p, r, cg.moved + MovesS(w.p, l), c)
    requires StaysPut(l, MovesS(w.p, r))
    requires DoneS(w, l, cg, c, st, env, n, k1, s1)
    requires EvalS(w.p, l, env, n).Val? ==> DoneS(w, r, GenS(w.p, l, cg).0, c, s1, env, n, k2, s2)
    requires EvalS(w.p, l, env, n).Timeout? ==> k2 == k1 && s2 == s1
    ensures DonePair(w, l, r, cg, c, st, env, n, k, s2)
  {
    hide Inv, EvalS, GenS, MovesS, LegalS, Steps, Keeps;
    var (c1, a) := GenS(w.p, l, cg);
    var (c2, b) := GenS(w.p, r, c1);
    GenSMoves(w.p, l, cg);
    GenSMoves(w.p, r, c1);
    k := k2;
    if EvalS(w.p, l, env, n).Val? {
      k := k1 + k2;
      if EvalS(w.p, r, env, n).Timeout? {
        StillRunsLater(w.code, st, k1, s1, k2, n);
      } else {
        if l.SVar? { VarIsReadable(w.p, l, cg.moved, c); }
        if r.SVar? { VarIsReadable(w.p, r, cg.moved + MovesS(w.p, l), c); }
        ResultKept(l, a, EvalS(w.p, l, env, n).v, c1, c2, s1, s2);
        ArrivesTrans(w.code, st, k1, s1, k2, s2, cg, c1, c2, c, env, w.ext);
      }
    }
  }

  // ---- Calls ----

  ghost predicate DoneArgs(w: World, es: seq<SExpr>, cg: CG, c: Ctx, st: State, env: Env, n: nat, k: nat, st': State)
    requires Ok(cg)
  {
    match EvalArgs(w.p, es, env, n)
    case Timeout => StillRuns(w.code, st, k, n)
    case Val(vs) =>
      var (c1, regs) := GenArgs(w.p, es, cg);
      && Arrives(w.code, st, k, st', cg, c1, c, env, w.ext)
      && ArgsReady(es, regs, vs, c1.temps, c1.next, st'.top, st'.heap)
  }

  lemma GenArgsLast(p: Program, es: seq<SExpr>, cg: CG)
    requires Ok(cg) && es != []
    ensures
      var (c1, rs) := GenArgs(p, es[..|es| - 1], cg);
      var (c2, r) := GenS(p, es[|es| - 1], c1);
      && GenArgs(p, es, cg) == (c2, rs + [r])
      && Prefixes(c1.blocks, c2.blocks) && c1.temps <= c2.temps && cg.next <= c1.next <= c2.next
  {
  }

  lemma EvalArgsLast(p: Program, es: seq<SExpr>, env: Env, n: nat)
    requires es != []
    ensures EvalArgs(p, es, env, n)
         == match EvalArgs(p, es[..|es| - 1], env, n)
            case Timeout => Timeout
            case Val(vs) =>
              match EvalS(p, es[|es| - 1], env, n)
              case Timeout => Timeout
              case Val(v) => Val(vs + [v])
  {
  }

  lemma ArgsReadyPush(w: World, es: seq<SExpr>, e: SExpr, rs: seq<Reg>, vs: seq<SVal>, c1: CG, c2: CG, s1: State,
                      s2: State, r: Reg, v: SVal)
    requires s1.Running? && s2.Running? && ArgsReady(es, rs, vs, c1.temps, c1.next, s1.top, s1.heap)
    requires SameFrame(s1.top, s2.top, c1.next) && SameSlots(s1.top, s2.top) && Keeps(s1.heap, s2.heap)
    requires c1.temps <= c2.temps && c1.next <= c2.next && Result(e, r, v, c2, s2)
    ensures ArgsReady(es + [e], rs + [r], vs + [v], c2.temps, c2.next, s2.top, s2.heap)
  {
    hide Denotes, Carries, Keeps, SameFrame;
    ArgsReadyKept(es, rs, vs, c1.temps, c1.next, s1.top, s1.heap, c2.temps, c2.next, s2.top, s2.heap);
  }

  /** Argument variables are still readable after all arguments were evaluated. */
  lemma {:induction false} ArgsStayReadable(p: Program, es: seq<SExpr>, moved: set<Var>, later: set<Var>, c: Ctx)
    requires LegalArgs(p, es, moved, c) && (forall k :: 0 <= k < |es| ==> StaysPut(es[k], later))
    ensures forall k :: 0 <= k < |es| && es[k].SVar? ==> Readable(c, moved + later, es[k].x)
    decreases |es|
  {
    if es != [] {
      var init := es[..|es| - 1];
      ArgsStayReadable(p, init, moved, later, c);
      assert forall k :: 0 <= k < |init| ==> es[k] == init[k];
    }
  }

  lemma CallIsCallable(w: World, e: SExpr, regs: seq<Reg>, vs: seq<SVal>, cg: CG, c1: CG, c: Ctx, st: State, env: Env)
    requires e.Call? && LegalS(w.p, e, cg.moved, c) && Ok(cg) && Good(c1, c, st, env, w.ext)
    requires c1.moved == cg.moved + MovesArgs(w.p, e.args) && |regs| == |e.args|
    requires ArgsReady(e.args, regs, vs, c1.temps, c1.next, st.top, st.heap)
    requires Ready(w, c)
    ensures Callable(w, e.f, e.args, regs, vs, c1, c, st, env)
  {
    hide Inv, Compile, LegalBlock, GenBody;
    ArgsStayReadable(w.p, e.args, cg.moved, MovesArgs(w.p, e.args), c);
    assert LegalFun(w.p, w.p[e.f], c.exact, c.callable);
  }

  lemma GenCall(p: Program, e: SExpr, cg: CG)
    requires Ok(cg) && e.Call?
    ensures
      var (c1, regs) := GenArgs(p, e.args, cg);
      var c2 := c1.(moved := c1.moved + OwnMoves(e.args, ParamsOf(p, e.f)));
      && GenS(p, e, cg) == EmitTemp(c2, CallFn(c2.next, e.f, regs))
      && GenS(p, e, cg).0.blocks == EmitTemp(c1, CallFn(c1.next, e.f, regs)).0.blocks
      && Prefixes(c1.blocks, GenS(p, e, cg).0.blocks) && cg.next <= c1.next
  {
  }

  lemma EvalCall(p: Program, e: SExpr, env: Env, n: nat)
    requires e.Call?
    ensures EvalS(p, e, env, n)
         == match EvalArgs(p, e.args, env, n)
            case Timeout => Timeout
            case Val(vs) => Invoke(p, e.f, vs, n)
  {
  }

  lemma ReadyIsCompiled(w: World, c: Ctx)
    requires Ready(w, c)
    ensures Compiled(w, c.exact, c.callable)
  {
  }

  lemma RegsAreSet(w: World, g: nat, args: seq<SExpr>, regs: seq<Reg>, vs: seq<SVal>, cg: CG, c: Ctx, st: State,
                   env: Env)
    requires Callable(w, g, args, regs, vs, cg, c, st, env)
    ensures st.Running? && |vs| == |args| == |regs| && g < |w.p| && Good(cg, c, st, env, w.ext)
    ensures forall a :: a in regs ==> a in st.top.sregs
  {
    hide Inv;
    forall a | a in regs ensures a in st.top.sregs {
      var k :| 0 <= k < |regs| && regs[k] == a;
      assert Carries(args[k], regs[k], cg.temps, st.top);
    }
  }

  predicate AllMoved(xs: seq<Var>, moved: set<Var>) {
    forall x :: x in xs ==> x in moved
  }

  /** The facts of a function's code. */
  lemma FunctionParts(w: World, g: nat, exact: bool, part: set<nat>)
    requires g in part && g < |w.p| && Compiled(w, exact, part)
    ensures
      var f := w.p[g];
      var cg, ce := Prologue(f), GenBody(w.p, f);
      && Distinct(f.params) && LegalBlock(w.p, f.body, cg, FunCtx(f, exact, part)) && cg.temps == [] && !Terminated(cg)
      && Linked(w.code, g, cg) && Linked(w.code, g, ce) && ce == GenBlock(w.p, f.body, cg) && ce.temps == []
      && (!Terminated(ce) ==> Linked(w.code, g, Emit(ce, RetNull)) && (exact ==> AllMoved(OwnParams(f.params), ce.moved)))
      && Flat(cg.scopes) == OwnParams(f.params)
    ensures Ready(w, FunCtx(w.p[g], exact, part))
  {
    var f := w.p[g];
    FunctionLegal(w, g, exact, part);
    FunctionGrows(w.p, f);
    hide LegalBlock, GenBlock, LegalPart, Prologue, GenFunction, Terminated, Prefixes, Flat, OwnParams, LegalFun;
    LinkedBefore(w.code, g, GenBody(w.p, f), GenFunction(w.p, f));
    LinkedBefore(w.code, g, Prologue(f), GenBody(w.p, f));
    PrologueOpen(f);
  }

  lemma FunctionLegal(w: World, g: nat, exact: bool, part: set<nat>)
    requires g in part && g < |w.p| && Compiled(w, exact, part)
    ensures LegalFun(w.p, w.p[g], exact, part) && Linked(w.code, g, GenFunction(w.p, w.p[g]))
  {
    hide LegalFun, GenFunction;
    assert w.code[g] == GenFunction(w.p, w.p[g]).blocks;
  }

  lemma FunctionGrows(p: Program, f: Fun)
    ensures
      var cg, ce := Prologue(f), GenBody(p, f);
      && Prefixes(cg.blocks, ce.blocks) && Prefixes(ce.blocks, GenFunction(p, f).blocks)
      && ce == GenBlock(p, f.body, cg) && (cg.temps == [] ==> ce.temps == [])
      && (!Terminated(ce) ==> GenFunction(p, f) == Emit(ce, RetNull))
  {
    hide GenBlock, Prologue;
  }

  lemma PrologueOpen(f: Fun)
    ensures Prologue(f).temps == [] && !Terminated(Prologue(f)) && Flat(Prologue(f).scopes) == OwnParams(f.params)
  {
    hide OwnParams, StoreArgs;
    StoreArgsMoves(EMPTY, f.params, 0);
    StoreArgsOpen(EMPTY, f.params, 0);
    assert [OwnParams(f.params)][..0] == [];
    assert Flat([]) == [];
  }

  lemma {:induction false} StoreArgsOpen(cg: CG, xs: seq<Var>, k: nat)
    requires Ok(cg) && !Terminated(cg)
    ensures !Terminated(StoreArgs(cg, xs, k))
    decreases |xs|
  {
    if xs != [] { StoreArgsOpen(Emit(cg, StoreArg(xs[0], k)), xs[1..], k + 1); }
  }

  lemma InvokeParts(p: Program, g: nat, vs: seq<SVal>, n: nat)
    requires n > 0 && g < |p| && |p[g].params| == |vs|
    ensures Invoke(p, g, vs, n)
         == match ExecBlock(p, p[g].body, EntryEnv(p[g], vs), n - 1)
            case TimedOut => Timeout
            case Ret(v) => Val(v)
            case _ => Val(Null)
  {
    hide ExecBlock;
  }

  /** Falling off the end of a function: the null string is returned. */
  lemma RetNullStep(w: World, cg: CG, c: Ctx, st: State, env: Env) returns (h: Heap)
    requires Good(cg, c, st, env, w.ext) && cg.temps == [] && (c.exact ==> AllMoved(c.owned, cg.moved))
    requires Linked(w.code, st.top.fn, Emit(cg, RetNull))
    ensures Returned(w, st, 1, 0, h, Null, c.exact)
  {
    hide Prefixes;
    h := st.heap;
    Fetch(w.code, st.top.fn, cg, RetNull, st);
    OneStep(w.code, st, PopFrame(st.rest, st.top.dst, 0, h));
    var held := Held(c.owned, cg.moved, [], st.top) + w.ext;
    if c.exact {
      VarRefsAllMoved(c.owned, cg.moved, st.top.svars);
      assert held == w.ext;
    } else {
      OwnsFewer(h, held, w.ext);
    }
  }

  lemma InvokeNothing(w: World, g: nat, vs: seq<SVal>, st: State)
    requires st.Running?
    ensures Invoke(w.p, g, vs, 0).Timeout? && StillRuns(w.code, st, 0, -1)
  {
  }

  lemma EnterableArity(f: Fun, objs: seq<Obj>, vs: seq<SVal>, h: Heap, ext: multiset<Obj>, exact: bool)
    requires Enterable(f, objs, vs, h, ext, exact)
    ensures |objs| == |vs| == |f.params|
  {
  }

  lemma GoodIsOk(cg: CG, c: Ctx, st: State, env: Env, ext: multiset<Obj>)
    requires Good(cg, c, st, env, ext)
    ensures Ok(cg) && st.Running?
  {
  }

  lemma FunCtxExact(f: Fun, exact: bool, part: set<nat>)
    ensures FunCtx(f, exact, part).exact == exact && FunCtx(f, exact, part).callable == part
  {
  }

  lemma FromBody(w: World, g: nat, c: Ctx, st: State, j: nat, s1: State, r: Run, env: Env, n: nat)
    returns (k: nat, o: Obj, h: Heap)
    requires g in c.callable && g < |w.p| && n > 0 && Compiled(w, c.exact, c.callable)
    requires c == FunCtx(w.p[g], c.exact, c.callable)
    requires Leads(w.code, st, j, s1, 0) && st.top.fn == g
    requires Agrees(w, ExecBlock(w.p, w.p[g].body, env, n - 1), n - 1, s1, r, Prologue(w.p[g]),
                    GenBlock(w.p, w.p[g].body, Prologue(w.p[g])), At(Prologue(w.p[g]), c), At(Prologue(w.p[g]), c))
    ensures
      match ExecBlock(w.p, w.p[g].body, env, n - 1)
      case TimedOut => StillRuns(w.code, st, k, n - 1)
      case Ret(v) => Returned(w, st, k, o, h, v, c.exact)
      case _ => Returned(w, st, k, o, h, Null, c.exact)
  {
    hide Compiled, LegalBlock, ExecBlock, Prologue, Linked, GenBody, Steps, Inv, Flat, FunCtx, Owns, SameFrame, Keeps,
      GenBlock, Terminated;
    FunctionParts(w, g, c.exact, c.callable);
    var cg := Prologue(w.p[g]);
    k, o, h := j + r.k, r.o, r.h;
    match ExecBlock(w.p, w.p[g].body, env, n - 1)
    case TimedOut => StillRunsLater(w.code, st, j, s1, r.k, n - 1);
    case Ret(v) => ReturnedLater(w, st, j, s1, 0, r.k, r.o, r.h, v, c.exact);
    case Normal(env1) =>
      LeadsSame(w.code, st, j, s1, 0);
      LeadsSame(w.code, s1, r.k, r.st, cg.next);
      h := RetNullStep(w, GenBody(w.p, w.p[g]), At(cg, c), r.st, env1);
      LeadsTrans(w.code, st, j, s1, r.k, r.st, 0, cg.next);
      ReturnedLater(w, st, j + r.k, r.st, 0, 1, 0, h, Null, c.exact);
      k, o := j + r.k + 1, 0;
    case _ => assert false;
  }

  // ---- Conditions ----

  ghost predicate DoneB(w: World, e: BExpr, cg: CG, c: Ctx, st: State, env: Env, n: nat, k: nat, st': State,
                        out: (CG, Operand))
  {
    match EvalB(w.p, e, env, n)
    case Timeout => StillRuns(w.code, st, k, n)
    case Val(b) =>
      && Arrives(w.code, st, k, st', cg, out.0, c, env, w.ext)
      && HasBool(st'.top, out.1, out.0.next, b)
  }

  lemma StrCmpParts(p: Program, e: BExpr, cg: CG, env: Env, n: nat, moved: set<Var>, c: Ctx)
    requires Ok(cg) && e.StrCmp? && LegalB(p, e, moved, c)
    ensures
      var c1 := GenS(p, e.sl, cg).0;
      var (c2, b) := GenS(p, e.sr, c1);
      && GenB(p, e, cg) == FinishStrCmp(e.equal, GenS(p, e.sl, cg).1, b, c2)
      && Prefixes(c2.blocks, GenB(p, e, cg).0.blocks) && cg.next <= c2.next
    ensures EvalB(p, e, env, n)
         == match PairValue(p, e.sl, e.sr, env, n)
            case Timeout => Timeout
            case Val((a, b)) => Val((a == b) == e.equal)
    ensures LegalS(p, e.sl, moved, c) && LegalS(p, e.sr, moved + MovesS(p, e.sl), c)
    ensures StaysPut(e.sl, MovesS(p, e.sr))
  {
    hide GenS, LegalS, MovesS, StaysPut, FinishStrCmp, Prefixes, Spares, PairValue;
    StrCmpGrows(p, e, cg);
    StrCmpValue(p, e, env, n);
  }

  lemma StrCmpGrows(p: Program, e: BExpr, cg: CG)
    requires Ok(cg) && e.StrCmp?
    ensures
      var c1 := GenS(p, e.sl, cg).0;
      var (c2, b) := GenS(p, e.sr, c1);
      && GenB(p, e, cg) == FinishStrCmp(e.equal, GenS(p, e.sl, cg).1, b, c2)
      && Prefixes(c2.blocks, GenB(p, e, cg).0.blocks) && cg.next <= c2.next
  {
    hide GenS, FinishStrCmp, Prefixes, Spares;
    var (c2, b) := GenS(p, e.sr, GenS(p, e.sl, cg).0);
    FinishGrows(e.equal, GenS(p, e.sl, cg).1, b, c2);
  }

  lemma FinishGrows(equal: bool, a: Reg, b: Reg, c2: CG)
    requires Ok(c2)
    ensures Prefixes(c2.blocks, FinishStrCmp(equal, a, b, c2).0.blocks)
  {
    hide FinishStrCmp, Prefixes;
  }

  lemma StrCmpValue(p: Program, e: BExpr, env: Env, n: nat)
    requires e.StrCmp?
    ensures EvalB(p, e, env, n)
         == match PairValue(p, e.sl, e.sr, env, n)
            case Timeout => Timeout
            case Val((a, b)) => Val((a == b) == e.equal)
  {
  }

  lemma LogicLegal(p: Program, e: BExpr, moved: set<Var>, c: Ctx)
    requires e.Logic? && LegalB(p, e, moved, c)
    ensures LegalB(p, e.bl, moved, c) && LegalB(p, e.br, moved + MovesB(p, e.bl), c)
    ensures c.exact ==> MovesB(p, e.br) == {}
  {
  }

  lemma LogicParts(p: Program, e: BExpr, cg: CG)
    requires Ok(cg) && e.Logic?
    ensures
      var (c1, v) := GenB(p, e.bl, cg);
      var c2 := OpenRight(c1, v, e.isAnd);
      var (c3, w) := GenB(p, e.br, c2);
      && Shape(c1, c2, c3) && c3.cur != c1.cur
      && GenB(p, e, cg) == CloseRight(c1, c2, c3, w, e.isAnd)
      && cg.next <= c1.next < c2.next <= c3.next <= JoinRight(c1, c2, c3, w).next
  {
    hide GenB, OpenRight, CloseRight, JoinRight, Prefixes, Spares;
    LogicIs(p, e, cg);
  }

  lemma LogicLinks(code: Code, fn: nat, c1: CG, c2: CG, c3: CG, w: Operand, isAnd: bool)
    requires Shape(c1, c2, c3) && Linked(code, fn, CloseRight(c1, c2, c3, w, isAnd).0)
    ensures Linked(code, fn, c1) && Linked(code, fn, c2) && Linked(code, fn, c3)
    ensures Linked(code, fn, Emit(RightEnd(c1, c3, w), Br(|c1.blocks| + 1)))
  {
    hide RightEnd;
    LinkedBefore(code, fn, JoinRight(c1, c2, c3, w), CloseRight(c1, c2, c3, w, isAnd).0);
    LinkedSame(code, fn, Emit(RightEnd(c1, c3, w), Br(|c1.blocks| + 1)), JoinRight(c1, c2, c3, w));
    LinkedBefore(code, fn, RightEnd(c1, c3, w), Emit(RightEnd(c1, c3, w), Br(|c1.blocks| + 1)));
    LinkedBefore(code, fn, c3, RightEnd(c1, c3, w));
    LinkedBefore(code, fn, c2, c3);
    LinkedBefore(code, fn, c1, c2);
  }

  lemma EvalLogic(p: Program, e: BExpr, env: Env, n: nat)
    requires e.Logic?
    ensures EvalB(p, e, env, n)
         == match EvalB(p, e.bl, env, n)
            case Timeout => Timeout
            case Val(a) => if a == e.isAnd then EvalB(p, e.br, env, n) else Val(a)
  {
  }

  lemma JoinNext(c1: CG, c2: CG, c3: CG, x: Operand)
    requires Shape(c1, c2, c3)
    ensures JoinRight(c1, c2, c3, x).next == RightEnd(c1, c3, x).next
  {
  }

  lemma LeadsLess(code: Code, st: State, k: nat, st': State, next: Reg, less: Reg)
    requires Leads(code, st, k, st', next) && less <= next
    ensures Leads(code, st, k, st', less)
  {
  }

  lemma EvalTruthy(p: Program, e: BExpr, env: Env, n: nat)
    ensures e.Truthy? ==> EvalB(p, e, env, n).Val?
  {
  }

  lemma LinkedCond(code: Code, fn: nat, p: Program, e: BExpr, cg: CG)
    requires Ok(cg) && Linked(code, fn, GenCond(p, e, cg).0)
    ensures Linked(code, fn, GenB(p, e, cg).0)
  {
    hide GenB;
    LinkedBefore(code, fn, GenB(p, e, cg).0, GenCond(p, e, cg).0);
  }

  // ---- Statements ----

  /** Where a statement leads: k steps to `st`, or to the caller with result `o` in heap `h`. */
  datatype Run = Run(k: nat, st: State, o: Obj, h: Heap)

  /** What an exact account has left after a jump to a loop target. */
  function Outside(c: Ctx): Ctx {
    if c.exact then c.(owned := c.outside) else c
  }

  /**
   The code of a statement agrees with its outcome: it falls through to the end of its code,
   jumps to a loop target, returns to the caller, or keeps running.
   */
  ghost predicate Agrees(w: World, out: Outcome, n: nat, st: State, r: Run, cg: CG, cg': CG, c: Ctx, c': Ctx)
    requires st.Running? && Ok(cg')
  {
    match out
    case TimedOut => StillRuns(w.code, st, r.k, n)
    case Normal(env) =>
      !Terminated(cg') && Leads(w.code, st, r.k, r.st, cg.next) && Good(cg', c', r.st, env, w.ext)
    case Brk(env) =>
      && cg.loops.InLoop?
      && Reaches(w, st, r.k, r.st, cg.next, cg.loops.breakTo, cg.moved, [], 0, Outside(c), env)
    case Cont(env) =>
      && cg.loops.InLoop? && r.k > 0
      && Reaches(w, st, r.k, r.st, cg.next, cg.loops.continueTo, cg.moved, [], 0, Outside(c), env)
    case Ret(v) => Returned(w, st, r.k, r.o, r.h, v, c.exact)
  }

  /** A run that does not fall through, preceded by other steps of the same statement. */
  lemma AgreesLater(w: World, out: Outcome, n: nat, st: State, k0: nat, s1: State, r: Run, cg: CG, cg1: CG, cgA: CG,
                    cgB: CG, c: Ctx, cA: Ctx, cB: Ctx)
    returns (r': Run)
    requires Leads(w.code, st, k0, s1, cg.next) && Ok(cgA) && Ok(cgB) && !out.Normal?
    requires Agrees(w, out, n, s1, r, cg1, cgA, c, cA)
    requires cg1.loops == cg.loops && cg.next <= cg1.next && (cg.loops.InLoop? ==> cg1.moved == cg.moved)
    ensures Agrees(w, out, n, st, r', cg, cgB, c, cB) && r' == r.(k := k0 + r.k)
  {
    r' := r.(k := k0 + r.k);
    hide Inv, Returned, Steps, StillRuns, SameFrame;
    match out
    case TimedOut => StillRunsLater(w.code, st, k0, s1, r.k, n);
    case Brk(_) => LeadsTrans(w.code, st, k0, s1, r.k, r.st, cg.next, cg1.next);
    case Cont(_) => LeadsTrans(w.code, st, k0, s1, r.k, r.st, cg.next, cg1.next);
    case Ret(v) => ReturnedLater(w, st, k0, s1, cg.next, r.k, r.o, r.h, v, c.exact);
  }

  /** Without temporaries the register bound is irrelevant. */
  lemma InvNoTemps(moved: set<Var>, next: Reg, next': Reg, c: Ctx, f: Frame, h: Heap, env: Env, ext: multiset<Obj>)
    requires Inv(moved, [], next, c, f, h, env, ext)
    ensures Inv(moved, [], next', c, f, h, env, ext)
  {
    hide Owns, VarsOk, BorrowsOk, Distinct;
  }

  ghost predicate Begins(w: World, s: Stmt, cg: CG, c: Ctx, st: State, env: Env) {
    && Ok(cg) && cg.scopes != [] && cg.temps == [] && !Terminated(cg)
    && Good(cg, At(cg, c), st, env, w.ext)
    && LegalStmt(w.p, s, cg, c)
    && Linked(w.code, st.top.fn, GenStmt(w.p, s, cg))
  }

  lemma ReadyAt(w: World, cg: CG, c: Ctx)
    requires Ready(w, c)
    ensures Ready(w, At(cg, c)) && forall x :: x in c.borrowed ==> !x.own
  {
  }

  // Moves only concern tracked variables.
  lemma {:induction false} MovesAreOwned(p: Program, e: SExpr, moved: set<Var>, c: Ctx)
    requires LegalS(p, e, moved, c)
    ensures forall x :: x in MovesS(p, e) ==> x in c.owned
    decreases e
  {
    match e
    case Lit(_) =>
    case SVar(_) =>
    case Concat(l, r) =>
      MovesAreOwned(p, l, moved, c);
      MovesAreOwned(p, r, moved + MovesS(p, l), c);
    case Call(f, args) =>
      ArgsMovesAreOwned(p, args, moved, c);
      forall x | x in OwnMoves(args, p[f].params) ensures x in c.owned {
        var k := OwnMovesFrom(args, p[f].params, x);
      }
  }

  lemma {:induction false} ArgsMovesAreOwned(p: Program, es: seq<SExpr>, moved: set<Var>, c: Ctx)
    requires LegalArgs(p, es, moved, c)
    ensures forall x :: x in MovesArgs(p, es) ==> x in c.owned
    decreases es
  {
    if es != [] {
      ArgsMovesAreOwned(p, es[..|es| - 1], moved, c);
      MovesAreOwned(p, es[|es| - 1], moved + MovesArgs(p, es[..|es| - 1]), c);
    }
  }

  // The facts of each statement kind: what is emitted, what it means, what is legal.

  lemma ExecSimple(p: Program, s: Stmt, env: Env, n: nat)
    ensures s.DeclStr? ==> Exec(p, s, env, n) == SetStr(env, s.x, EvalS(p, s.init, env, n))
    ensures s.AssignStr? ==> Exec(p, s, env, n) == SetStr(env, s.x, EvalS(p, s.rhs, env, n))
    ensures s.Eval? ==> Exec(p, s, env, n) == if EvalS(p, s.e, env, n).Timeout? then TimedOut else Normal(env)
    ensures s.Return? ==>
      Exec(p, s, env, n) == match EvalS(p, s.e, env, n) case Timeout => TimedOut case Val(v) => Source.Ret(v)
  {
    hide EvalS, ExecBlock, EvalB, EvalI;
  }

  lemma LegalSimple(p: Program, s: Stmt, cg: CG, c: Ctx)
    requires Ok(cg) && cg.scopes != [] && LegalStmt(p, s, cg, c)
    ensures s.DeclStr? ==>
      && s.x !in Flat(cg.scopes) && s.x !in c.borrowed && s.x !in cg.moved && LegalS(p, s.init, cg.moved, At(cg, c))
    ensures s.AssignStr? ==>
      && s.x in Flat(cg.scopes) && s.x !in cg.moved && s.x !in MovesS(p, s.rhs) && s.x !in c.borrowed
      && LegalS(p, s.rhs, cg.moved, At(cg, c)) && (s.rhs.SVar? ==> IsMove(s.x, s.rhs) && s.rhs.x != s.x)
    ensures s.Eval? ==> LegalS(p, s.e, cg.moved, At(cg, c))
    ensures s.Return? ==> LegalS(p, s.e, cg.moved, At(cg, c))
  {
    hide LegalS, MovesS, Flat, LegalBlock, LegalIf, LegalWhile, LegalRange, LegalI, At, IsMove, EnterForever;
  }

  lemma GenSimple(p: Program, s: Stmt, cg: CG)
    requires Ok(cg) && cg.scopes != []
    ensures s.DeclStr? ==> GenStmt(p, s, cg) == GenDecl(p, s.x, s.init, cg)
    ensures s.AssignStr? ==> GenStmt(p, s, cg) == GenAssign(p, s.x, s.rhs, cg)
    ensures s.Eval? ==> GenStmt(p, s, cg) == GenS(p, s.e, cg).0
    ensures s.Return? ==> GenStmt(p, s, cg) == GenReturn(p, s.e, cg)
  {
    hide GenS, GenDecl, GenAssign, GenReturn, GenBlock, GenIf, GenWhile, GenRange, GenForever, GenStoreInt, GenBreak,
      GenContinue, Extends, Grows, Follows;
  }

  lemma ReadVar(p: Program, e: SExpr, moved: set<Var>, c: Ctx)
    requires e.SVar? && LegalS(p, e, moved, c)
    ensures Readable(c, moved + MovesS(p, e), e.x)
  {
    VarIsReadable(p, e, moved, c);
    assert moved + {} == moved;
  }

  lemma DeclParts(p: Program, x: Var, e: SExpr, cg: CG, c: Ctx)
    requires Ok(cg) && cg.scopes != [] && LegalStmt(p, DeclStr(x, e), cg, c)
    ensures
      var (c1, a) := GenS(p, e, Declare(cg, x));
      && GenStmt(p, DeclStr(x, e), cg) == DeclTail(x, e, c1, a)
      && Prefixes(c1.blocks, DeclTail(x, e, c1, a).blocks) && cg.next <= c1.next
      && (e.SVar? ==> c1.temps == cg.temps)
      && c1.moved == cg.moved + MovesS(p, e)
      && Flat(DeclTail(x, e, c1, a).scopes) == Flat(cg.scopes) + [x]
    ensures LegalS(p, e, cg.moved, At(cg, c)) && x !in Flat(cg.scopes) && x !in c.borrowed
    ensures x !in cg.moved + MovesS(p, e)
    ensures e.SVar? ==> Readable(At(cg, c), cg.moved + MovesS(p, e), e.x)
  {
    hide LegalStmt, GenStmt, LegalS, MovesS, Flat, GenS, GenDecl, DeclTail, Prefixes, Spares;
    LegalSimple(p, DeclStr(x, e), cg, c);
    GenSimple(p, DeclStr(x, e), cg);
    DeclIs(p, x, e, cg);
    GenSMoves(p, e, Declare(cg, x));
    FlatDeclare(cg, x);
    MovesAreOwned(p, e, cg.moved, At(cg, c));
    if e.SVar? {
      ReadVar(p, e, cg.moved, At(cg, c));
      GenVar(p, e, Declare(cg, x));
    }
  }

  lemma DeclIs(p: Program, x: Var, e: SExpr, cg: CG)
    requires Ok(cg) && cg.scopes != []
    ensures
      var (c1, a) := GenS(p, e, Declare(cg, x));
      && GenDecl(p, x, e, cg) == DeclTail(x, e, c1, a)
      && Prefixes(c1.blocks, DeclTail(x, e, c1, a).blocks)
      && DeclTail(x, e, c1, a).scopes == c1.scopes == Declare(cg, x).scopes
  {
    hide GenS, Declare;
    DeclGrows(x, e, GenS(p, e, Declare(cg, x)).0, GenS(p, e, Declare(cg, x)).1);
  }

  lemma DeclGrows(x: Var, e: SExpr, c1: CG, a: Reg)
    requires Ok(c1)
    ensures Prefixes(c1.blocks, DeclTail(x, e, c1, a).blocks) && DeclTail(x, e, c1, a).scopes == c1.scopes
  {
    hide Emit, UntrackTemp, MarkMove;
  }

  lemma AssignParts(p: Program, x: Var, e: SExpr, cg: CG, c: Ctx)
    requires Ok(cg) && cg.scopes != [] && LegalStmt(p, AssignStr(x, e), cg, c)
    ensures
      var (c1, a) := GenS(p, e, cg);
      && GenStmt(p, AssignStr(x, e), cg) == AssignTail(x, e, c1, a)
      && Prefixes(c1.blocks, AssignTail(x, e, c1, a).blocks) && cg.next <= c1.next
      && (e.SVar? ==> c1.temps == cg.temps)
      && c1.moved == cg.moved + MovesS(p, e)
      && AssignTail(x, e, c1, a).scopes == cg.scopes
    ensures LegalS(p, e, cg.moved, At(cg, c)) && x in Flat(cg.scopes) && x !in c.borrowed
    ensures x !in cg.moved + MovesS(p, e)
    ensures e.SVar? ==> IsMove(x, e) && e.x != x && Readable(At(cg, c), cg.moved + MovesS(p, e), e.x)
  {
    hide LegalStmt, GenStmt, LegalS, MovesS, Flat, GenS, GenAssign, AssignTail, Prefixes, Spares;
    LegalSimple(p, AssignStr(x, e), cg, c);
    GenSimple(p, AssignStr(x, e), cg);
    AssignIs(p, x, e, cg);
    GenSMoves(p, e, cg);
    if e.SVar? {
      ReadVar(p, e, cg.moved, At(cg, c));
      GenVar(p, e, cg);
    }
  }

  lemma AssignIs(p: Program, x: Var, e: SExpr, cg: CG)
    requires Ok(cg)
    ensures
      var (c1, a) := GenS(p, e, cg);
      && GenAssign(p, x, e, cg) == AssignTail(x, e, c1, a)
      && Prefixes(c1.blocks, AssignTail(x, e, c1, a).blocks) && AssignTail(x, e, c1, a).scopes == c1.scopes
  {
    hide GenS;
    AssignGrows(x, e, GenS(p, e, cg).0, GenS(p, e, cg).1);
  }

  lemma AssignGrows(x: Var, e: SExpr, c1: CG, a: Reg)
    requires Ok(c1)
    ensures Prefixes(c1.blocks, AssignTail(x, e, c1, a).blocks) && AssignTail(x, e, c1, a).scopes == c1.scopes
  {
    hide Emit, Fresh, UntrackTemp, MarkMove;
  }

  lemma GenVar(p: Program, e: SExpr, cg: CG)
    requires Ok(cg) && e.SVar?
    ensures GenS(p, e, cg).0.temps == cg.temps
  {
  }

  lemma EvalParts(p: Program, e: SExpr, cg: CG, c: Ctx)
    requires Ok(cg) && cg.scopes != [] && LegalStmt(p, Eval(e), cg, c)
    ensures GenStmt(p, Eval(e), cg) == GenS(p, e, cg).0 && !Terminated(GenS(p, e, cg).0)
    ensures LegalS(p, e, cg.moved, At(cg, c))
  {
    hide LegalStmt, GenStmt, LegalS, MovesS, Flat;
    LegalSimple(p, Eval(e), cg, c);
    GenSimple(p, Eval(e), cg);
    hide LegalStmt, GenStmt;
  }

  lemma ReturnParts(p: Program, e: SExpr, cg: CG, c: Ctx)
    requires Ok(cg) && cg.scopes != [] && LegalStmt(p, Return(e), cg, c)
    ensures
      var (c1, a) := GenS(p, e, cg);
      && GenStmt(p, Return(e), cg) == ReturnTail(c1, a)
      && Prefixes(c1.blocks, ReturnTail(c1, a).blocks) && cg.next <= c1.next
      && c1.moved == cg.moved + MovesS(p, e) && c1.scopes == cg.scopes
    ensures LegalS(p, e, cg.moved, At(cg, c))
    ensures e.SVar? ==> Readable(At(cg, c), cg.moved + MovesS(p, e), e.x)
  {
    hide LegalStmt, GenStmt, LegalS, MovesS, Flat, GenS, GenReturn, ReturnTail, Prefixes, Spares;
    LegalSimple(p, Return(e), cg, c);
    GenSimple(p, Return(e), cg);
    ReturnIs(p, e, cg);
    GenSMoves(p, e, cg);
    if e.SVar? { ReadVar(p, e, cg.moved, At(cg, c)); }
  }

  lemma ReturnIs(p: Program, e: SExpr, cg: CG)
    requires Ok(cg)
    ensures
      var (c1, a) := GenS(p, e, cg);
      GenReturn(p, e, cg) == ReturnTail(c1, a) && Prefixes(c1.blocks, ReturnTail(c1, a).blocks)
  {
    hide GenS;
    ReturnGrows(GenS(p, e, cg).0, GenS(p, e, cg).1);
  }

  lemma ReturnGrows(c1: CG, a: Reg)
    requires Ok(c1)
    ensures Prefixes(c1.blocks, ReturnTail(c1, a).blocks)
  {
    hide Emit, ReleaseTemps, ReleaseVars, ReleaseOrder;
  }

  lemma IntParts(p: Program, s: Stmt, x: Var, e: IExpr, cg: CG, c: Ctx, env: Env, n: nat)
    requires s == DeclInt(x, e) || s == AssignInt(x, e)
    requires Ok(cg) && cg.scopes != [] && LegalStmt(p, s, cg, c)
    ensures GenStmt(p, s, cg) == GenStoreInt(x, e, cg) && GenStoreInt(x, e, cg).scopes == cg.scopes && LegalI(e, c)
    ensures Exec(p, s, env, n) == Normal(env.(ints := env.ints[x := EvalI(e, env)]))
    ensures c.(ints := c.ints + {x}) == After(s, c)
  {
    hide GenStoreInt, EvalI, GenI;
    IntIs(p, s, x, e, cg);
    hide GenStmt;
    if s.AssignInt? { assert c.ints + {x} == c.ints; }
  }

  lemma IntIs(p: Program, s: Stmt, x: Var, e: IExpr, cg: CG)
    requires (s == DeclInt(x, e) || s == AssignInt(x, e)) && Ok(cg) && cg.scopes != []
    ensures GenStmt(p, s, cg) == GenStoreInt(x, e, cg) && GenStoreInt(x, e, cg).scopes == cg.scopes
  {
    hide GenStoreInt, GenI, Grows;
  }

  lemma SimInt(w: World, s: Stmt, x: Var, e: IExpr, cg: CG, c: Ctx, st: State, env: Env, n: nat) returns (r: Run)
    requires (s == DeclInt(x, e) || s == AssignInt(x, e)) && Begins(w, s, cg, c, st, env)
    ensures Agrees(w, Exec(w.p, s, env, n), n, st, r, cg, GenStmt(w.p, s, cg), At(cg, c),
                   At(GenStmt(w.p, s, cg), After(s, c)))
  {
    hide Inv, EvalI, GenI, Steps, LegalI, Linked, Exec, GenStmt, GenStoreInt, LegalStmt, Keeps, Flat, SameFrame;
    IntParts(w.p, s, x, e, cg, c, env, n);
    LegalAt(e, cg, c);
    var k, st' := SimStoreInt(w, x, e, cg, At(cg, c), st, env);
    r := Run(k, st', 0, st.heap);
  }

  lemma {:induction false} LegalAt(e: IExpr, cg: CG, c: Ctx)
    requires LegalI(e, c)
    ensures LegalI(e, At(cg, c))
    decreases e
  {
    if e.Arith? {
      LegalAt(e.il, cg, c);
      LegalAt(e.ir, cg, c);
    }
  }

  lemma SimJump(w: World, s: Stmt, cg: CG, c: Ctx, st: State, env: Env, n: nat) returns (r: Run)
    requires (s == Break || s == Continue) && Begins(w, s, cg, c, st, env)
    ensures Agrees(w, Exec(w.p, s, env, n), n, st, r, cg, GenStmt(w.p, s, cg), At(cg, c), At(GenStmt(w.p, s, cg), c))
  {
    hide Inv, Steps, Keeps, Flat, SameFrame, Linked;
    var b := if s == Break then cg.loops.breakTo else cg.loops.continueTo;
    var s1 := BrStep(w, cg, b, At(cg, c), st, env);
    InvNoTemps(cg.moved, cg.next, 0, At(cg, c), s1.top, s1.heap, env, w.ext);
    r := Run(1, s1, 0, st.heap);
  }

  // ---- If ----

  /** After the condition: flush its temporaries and branch. */
  lemma SimSplit(w: World, c1: CG, v: Operand, b: bool, c: Ctx, st: State, env: Env) returns (k: nat, st': State)
    requires Good(c1, c, st, env, w.ext) && HasBool(st.top, v, c1.next, b) && !Terminated(c1)
    requires Linked(w.code, st.top.fn, SplitIf(c1, v))
    ensures Reaches(w, st, k, st', c1.next, if b then |c1.blocks| else |c1.blocks| + 1, c1.moved, [], c1.next, c, env)
  {
    hide Inv, Steps, Keeps, Prefixes, FlushSince;
    var c2 := FlushSince(c1, 0);
    SplitLinks(w.code, st.top.fn, c1, v);
    var k1, s1 := SimFlush(w, 0, c1, c, st, env);
    hide Linked;
    var t := |c1.blocks|;
    HasBoolKept(st.top, s1.top, v, c1.next, b);
    assert Good(AddBlocks(c2, 3), c, s1, env, w.ext);
    st' := CondBrStep(w, AddBlocks(c2, 3), v, b, t, t + 1, c, s1, env);
    LeadsTrans(w.code, st, k1, s1, 1, st', c1.next, c1.next);
    k := k1 + 1;
  }

  lemma HasBoolKept(f: Frame, g: Frame, v: Operand, next: Reg, b: bool)
    requires HasBool(f, v, next, b) && SameFrame(f, g, next)
    ensures HasBool(g, v, next, b)
  {
  }

  lemma SplitLinks(code: Code, fn: nat, c1: CG, v: Operand)
    requires Ok(c1) && !Terminated(c1) && Linked(code, fn, SplitIf(c1, v))
    ensures
      var c2 := FlushSince(c1, 0);
      && c2.next == c1.next && c2.moved == c1.moved && c2.temps == [] && |c2.blocks| == |c1.blocks|
      && Linked(code, fn, c2)
      && Linked(code, fn, Emit(AddBlocks(c2, 3), CondBr(v, |c1.blocks|, |c1.blocks| + 1)))
  {
    var c2 := FlushSince(c1, 0);
    FlushNext(c1, 0);
    hide FlushSince;
    LinkedSame(code, fn, Emit(AddBlocks(c2, 3), CondBr(v, |c1.blocks|, |c1.blocks| + 1)), SplitIf(c1, v));
    LinkedBefore(code, fn, c2, SplitIf(c1, v));
  }

  lemma {:induction false} ReleasesNext(cg: CG, rs: seq<Reg>)
    requires Ok(cg)
    ensures EmitReleases(cg, rs).next == cg.next
    ensures !Terminated(cg) ==> !Terminated(EmitReleases(cg, rs))
    decreases rs
  {
    if rs != [] { ReleasesNext(Emit(cg, StringRelease(rs[0])), rs[1..]); }
  }

  lemma FlushNext(cg: CG, mark: nat)
    requires Ok(cg) && mark <= |cg.temps|
    ensures FlushSince(cg, mark).next == cg.next
    ensures !Terminated(cg) ==> !Terminated(FlushSince(cg, mark))
  {
    ReleasesNext(cg, cg.temps[mark..]);
  }

  lemma CondOpen(p: Program, e: BExpr, cg: CG)
    requires Ok(cg)
    ensures !Terminated(GenCond(p, e, cg).0)
  {
    hide GenS, GenI, GenArgs, JoinRight, OpenRight, Prefixes, Spares, Touches;
    if e.Logic? { LogicParts(p, e, cg); }
  }

  /** A block that fell through continues at the join. */
  lemma SimJoin(w: World, cg: CG, b: nat, c: Ctx, st: State, env: Env) returns (st': State)
    requires Good(cg, c, st, env, w.ext) && !Terminated(cg)
    requires Linked(w.code, st.top.fn, JoinTo(cg, b))
    ensures Reaches(w, st, 1, st', cg.next, b, cg.moved, cg.temps, cg.next, c, env)
  {
    hide Inv, Prefixes;
    st' := BrStep(w, cg, b, c, st, env);
  }

  lemma IfLinks(code: Code, fn: nat, p: Program, s: Stmt, cg: CG)
    requires Ok(cg) && s.If? && Linked(code, fn, GenIf(p, s, cg))
    ensures Linked(code, fn, GenCond(p, s.cond, cg).0) && Linked(code, fn, ThenStart(p, s, cg))
    ensures Linked(code, fn, ThenEnd(p, s, cg)) && Linked(code, fn, GenBlock(p, s.thn, ThenStart(p, s, cg)))
    ensures Linked(code, fn, ElseEnd(p, s, cg)) && Linked(code, fn, GenBlock(p, s.els, ElseStart(p, s, cg)))
  {
    hide ThenStart, GenCond, GenBlock, Prefixes;
    LinkedSame(code, fn, ElseEnd(p, s, cg), GenIf(p, s, cg));
    LinkedBefore(code, fn, GenBlock(p, s.els, ElseStart(p, s, cg)), ElseEnd(p, s, cg));
    LinkedBefore(code, fn, ElseStart(p, s, cg), ElseEnd(p, s, cg));
    LinkedSame(code, fn, ThenEnd(p, s, cg), ElseStart(p, s, cg));
    LinkedBefore(code, fn, GenBlock(p, s.thn, ThenStart(p, s, cg)), ThenEnd(p, s, cg));
    LinkedBefore(code, fn, ThenStart(p, s, cg), ThenEnd(p, s, cg));
    ThenPrefix(p, s, cg);
    LinkedBefore(code, fn, GenCond(p, s.cond, cg).0, ThenStart(p, s, cg));
  }

  lemma ThenPrefix(p: Program, s: Stmt, cg: CG)
    requires Ok(cg) && s.If?
    ensures Prefixes(GenCond(p, s.cond, cg).0.blocks, ThenStart(p, s, cg).blocks)
    ensures cg.next <= GenCond(p, s.cond, cg).0.next <= ThenStart(p, s, cg).next
    ensures ThenStart(p, s, cg).loops == cg.loops
  {
    hide GenCond;
  }

  lemma IfLegal(p: Program, s: Stmt, cg: CG, c: Ctx)
    requires Ok(cg) && cg.scopes != [] && s.If? && LegalStmt(p, s, cg, c)
    ensures LegalB(p, s.cond, cg.moved, At(cg, c)) && LoopRule(cg, MovesB(p, s.cond))
    ensures LegalBlock(p, s.thn, ThenStart(p, s, cg), c) && LegalBlock(p, s.els, ElseStart(p, s, cg), c)
    ensures c.exact ==> BranchesMoveAlike(p, s, cg)
    ensures GenStmt(p, s, cg) == GenIf(p, s, cg)
  {
    hide LegalB, MovesB, LegalBlock, ThenEnd, ElseEnd, ThenStart, ElseStart, At, LoopRule, GenIf,
      BranchesMoveAlike;
  }

  lemma ExecIf(p: Program, s: Stmt, env: Env, n: nat)
    requires s.If?
    ensures Exec(p, s, env, n)
         == match EvalB(p, s.cond, env, n)
            case Timeout => TimedOut
            case Val(b) => if b then ExecBlock(p, s.thn, env, n) else ExecBlock(p, s.els, env, n)
  {
    hide EvalB, ExecBlock, EvalS;
  }

  /** The condition and the branch, up to the first instruction of the chosen block. */
  ghost predicate Branches(w: World, e: BExpr, cg: CG, c: Ctx, st: State, env: Env, n: nat, k: nat, st': State)
    requires Ok(cg)
  {
    var c1 := GenCond(w.p, e, cg).0;
    match EvalB(w.p, e, env, n)
    case Timeout => StillRuns(w.code, st, k, n)
    case Val(b) =>
      Reaches(w, st, k, st', cg.next, if b then |c1.blocks| else |c1.blocks| + 1, c1.moved, [], c1.next, c, env)
  }

  lemma LinkedSplit(w: World, s: Stmt, cg: CG, fn: nat)
    requires Ok(cg) && s.If? && Linked(w.code, fn, ThenStart(w.p, s, cg))
    ensures Linked(w.code, fn, SplitIf(GenCond(w.p, s.cond, cg).0, GenCond(w.p, s.cond, cg).1))
  {
    hide GenCond, Linked, SplitIf;
  }

  lemma BranchGood(w: World, s: Stmt, cg: CG, c: Ctx, s1: State, env: Env, b: bool)
    requires s.If? && Ok(cg) && s1.Running?
    requires
      var c1 := GenCond(w.p, s.cond, cg).0;
      && At0(if b then |c1.blocks| else |c1.blocks| + 1, s1.top)
      && Inv(c1.moved, [], c1.next, At(cg, c), s1.top, s1.heap, env, w.ext)
    ensures
      var cs := if b then ThenStart(w.p, s, cg) else ElseStart(w.p, s, cg);
      && Good(cs, At(cg, c), s1, env, w.ext) && At(cs, c) == At(cg, c) && !Terminated(cs) && cs.temps == []
      && cs.loops == cg.loops && cg.next <= cs.next && cs.scopes == cg.scopes
  {
    hide Inv, GenCond, ThenStart, Flat, ElseStart;
    var c1 := GenCond(w.p, s.cond, cg).0;
    var cs := if b then ThenStart(w.p, s, cg) else ElseStart(w.p, s, cg);
    ElseTemps(w.p, s, cg);
    ThenPrefix(w.p, s, cg);
    InvNoTemps(c1.moved, c1.next, cs.next, At(cg, c), s1.top, s1.heap, env, w.ext);
  }

  lemma ElseTemps(p: Program, s: Stmt, cg: CG)
    requires Ok(cg) && s.If?
    ensures ThenEnd(p, s, cg).temps == [] && ElseStart(p, s, cg).temps == [] && ElseEnd(p, s, cg).temps == []
  {
    hide GenBlock, ThenStart;
  }

  lemma GenIfParts(p: Program, s: Stmt, cg: CG)
    requires Ok(cg) && s.If?
    ensures GenIf(p, s, cg).moved == ElseEnd(p, s, cg).moved + ThenEnd(p, s, cg).moved
    ensures GenIf(p, s, cg).temps == [] && GenIf(p, s, cg).cur == IfBase(p, s, cg) + 2
    ensures ThenEnd(p, s, cg) == JoinTo(GenBlock(p, s.thn, ThenStart(p, s, cg)), IfBase(p, s, cg) + 2)
    ensures ElseEnd(p, s, cg) == JoinTo(GenBlock(p, s.els, ElseStart(p, s, cg)), IfBase(p, s, cg) + 2)
    ensures cg.next <= ThenStart(p, s, cg).next <= ElseStart(p, s, cg).next
  {
    ElseTemps(p, s, cg);
    ThenPrefix(p, s, cg);
    hide GenBlock, ThenStart, ElseStart, GenCond;
  }

  /** The state at the merge block, whichever branch was taken. */
  lemma MergeInv(w: World, s: Stmt, cg: CG, c: Ctx, f: Frame, h: Heap, env: Env, b: bool)
    requires s.If? && Ok(cg) && cg.scopes != [] && LegalStmt(w.p, s, cg, c)
    requires
      var ce := GenBlock(w.p, if b then s.thn else s.els, if b then ThenStart(w.p, s, cg) else ElseStart(w.p, s, cg));
      Inv(ce.moved, [], ce.next, At(cg, c), f, h, env, w.ext) && !Terminated(ce)
    ensures Inv(GenIf(w.p, s, cg).moved, [], GenIf(w.p, s, cg).next, At(cg, c), f, h, env, w.ext)
  {
    hide Inv, LegalStmt, Flat, ThenStart, ElseStart, GenBlock, GenCond, LegalBlock, LegalB, ThenEnd, ElseEnd, GenIf;
    IfLegal(w.p, s, cg, c);
    GenIfParts(w.p, s, cg);
    var g := GenIf(w.p, s, cg);
    var ce := GenBlock(w.p, if b then s.thn else s.els, if b then ThenStart(w.p, s, cg) else ElseStart(w.p, s, cg));
    InvNoTemps(ce.moved, ce.next, g.next, At(cg, c), f, h, env, w.ext);
    InvMoveMore(ce.moved, g.moved, [], g.next, g.next, At(cg, c), f, h, env, w.ext);
  }

  lemma SimMerge(w: World, s: Stmt, cg: CG, c: Ctx, s1: State, k: nat, s2: State, env: Env, b: bool) returns (r: Run)
    requires s.If? && Ok(cg) && cg.scopes != [] && LegalStmt(w.p, s, cg, c) && s1.Running?
    requires
      var cs := if b then ThenStart(w.p, s, cg) else ElseStart(w.p, s, cg);
      var ce := GenBlock(w.p, if b then s.thn else s.els, cs);
      && Leads(w.code, s1, k, s2, cs.next) && Good(ce, At(cs, c), s2, env, w.ext) && !Terminated(ce)
    requires Linked(w.code, s1.top.fn, ThenEnd(w.p, s, cg)) && Linked(w.code, s1.top.fn, ElseEnd(w.p, s, cg))
    ensures Leads(w.code, s1, r.k, r.st, cg.next) && r.k >= k
    ensures !Terminated(GenStmt(w.p, s, cg))
    ensures Good(GenStmt(w.p, s, cg), At(GenStmt(w.p, s, cg), c), r.st, env, w.ext)
  {
    hide Inv, Steps, Linked, GenStmt, LegalStmt, Flat, SameFrame, ThenStart, ElseStart, GenBlock, GenCond, LegalBlock,
      LegalB, Keeps, ThenEnd, ElseEnd, GenIf, Prefixes, Spares;
    IfLegal(w.p, s, cg, c);
    GenIfParts(w.p, s, cg);
    ElseTemps(w.p, s, cg);
    var cs := if b then ThenStart(w.p, s, cg) else ElseStart(w.p, s, cg);
    var ce := GenBlock(w.p, if b then s.thn else s.els, cs);
    assert ce.temps == [] && At(cs, c) == At(cg, c);
    LeadsSame(w.code, s1, k, s2, cs.next);
    var s3 := SimJoin(w, ce, IfBase(w.p, s, cg) + 2, At(cg, c), s2, env);
    LeadsLess(w.code, s1, k, s2, cs.next, cg.next);
    LeadsTrans(w.code, s1, k, s2, 1, s3, cg.next, ce.next);
    MergeInv(w, s, cg, c, s3.top, s3.heap, env, b);
    r := Run(k + 1, s3, 0, s3.heap);
  }

  // ---- Blocks ----

  lemma GenBlockParts(p: Program, ss: seq<Stmt>, cg: CG)
    requires Ok(cg)
    ensures
      var c0 := PushScope(cg);
      var c1 := GenStmts(p, ss, c0);
      var last := c1.scopes[|c1.scopes| - 1];
      && c1.scopes[..|c1.scopes| - 1] == cg.scopes
      && GenBlock(p, ss, cg) == PopScope(if Terminated(c1) then c1 else ReleaseVars(c1, last))
      && c1.loops == cg.loops && Prefixes(c1.blocks, GenBlock(p, ss, cg).blocks) && cg.next <= c1.next
      && (cg.temps == [] ==> c1.temps == [])
  {
    hide ReleaseVars, Prefixes, GenStmts;
  }

  lemma {:induction false} ReleaseVarsOpen(cg: CG, xs: seq<Var>)
    requires Ok(cg) && !Terminated(cg)
    ensures !Terminated(ReleaseVars(cg, xs))
    decreases |xs|
  {
    if xs != [] {
      if xs[0] in cg.moved {
        ReleaseVarsOpen(cg, xs[1..]);
      } else {
        ReleaseVarsOpen(ReleaseOne(cg, xs[0]), xs[1..]);
      }
    }
  }

  /** Fall-through at the end of a block: the block's own variables are released. */
  lemma SimBlockEnd(w: World, ss: seq<Stmt>, cg: CG, c: Ctx, st: State, env: Env) returns (r: Run)
    requires Ok(cg) && cg.temps == []
    requires
      var c1 := GenStmts(w.p, ss, PushScope(cg));
      Good(c1, At(c1, c), st, env, w.ext) && !Terminated(c1)
    requires Linked(w.code, st.top.fn, GenBlock(w.p, ss, cg))
    ensures Leads(w.code, st, r.k, r.st, GenStmts(w.p, ss, PushScope(cg)).next)
    ensures Good(GenBlock(w.p, ss, cg), At(cg, c), r.st, env, w.ext) && !Terminated(GenBlock(w.p, ss, cg))
  {
    hide Inv, Steps, Linked, SameFrame, GenStmts, GenBlock, Keeps, ReleaseVars, Prefixes;
    GenBlockParts(w.p, ss, cg);
    var c1 := GenStmts(w.p, ss, PushScope(cg));
    var last := c1.scopes[|c1.scopes| - 1];
    var c2 := ReleaseVars(c1, last);
    ReleaseVarsOpen(c1, last);
    LinkedSame(w.code, st.top.fn, c2, GenBlock(w.p, ss, cg));
    assert Flat(c1.scopes) == Flat(cg.scopes) + last;
    hide Flat;
    var k, s1 := SimReleaseVars(w, last, Flat(cg.scopes), c1, At(c1, c), st, env);
    r := Run(k, s1, 0, s1.heap);
  }

  /** Variables of inner scopes are forgotten. */
  lemma InvNarrow(moved: set<Var>, temps: seq<Reg>, next: Reg, c: Ctx, c': Ctx, f: Frame, h: Heap, env: Env,
                  ext: multiset<Obj>)
    requires Inv(moved, temps, next, c, f, h, env, ext)
    requires c'.borrowed == c.borrowed && c'.ints <= c.ints && c'.exact == c.exact
    requires c'.owned <= c.owned && (c.exact ==> c'.owned == c.owned)
    ensures Inv(moved, temps, next, c', f, h, env, ext)
  {
    hide Denotes, VarRefs, TempRefs;
    if c'.owned != c.owned {
      var tail := c.owned[|c'.owned|..];
      assert c.owned == c'.owned + tail;
      VarRefsAppend(c'.owned, tail, moved, f.svars);
      OwnsFewer(h, Held(c.owned, moved, temps, f) + ext, Held(c'.owned, moved, temps, f) + ext);
    }
    VarsFewer(c, c', moved, f, h, env, ext);
    hide Owns, VarsOk, BorrowsOk;
  }

  lemma StmtsParts(p: Program, ss: seq<Stmt>, cg: CG, c: Ctx, env: Env, n: nat)
    requires Ok(cg) && cg.scopes != [] && ss != [] && !Terminated(cg) && LegalStmts(p, ss, cg, c)
    ensures
      var cs := GenStmt(p, ss[0], cg);
      && GenStmts(p, ss, cg) == GenStmts(p, ss[1..], ReleaseTemps(cs))
      && LegalStmt(p, ss[0], cg, c) && LegalStmts(p, ss[1..], ReleaseTemps(cs), After(ss[0], c))
      && Prefixes(cs.blocks, ReleaseTemps(cs).blocks)
      && Prefixes(ReleaseTemps(cs).blocks, GenStmts(p, ss, cg).blocks)
      && cg.next <= cs.next <= ReleaseTemps(cs).next && cs.loops == cg.loops == ReleaseTemps(cs).loops
      && Follows(cg, cs)
      && (!Terminated(cs) ==> ReleaseTemps(cs) == FlushSince(cs, 0) && !Terminated(FlushSince(cs, 0)))
    ensures ExecBlock(p, ss, env, n)
         == match Exec(p, ss[0], env, n)
            case Normal(env1) => ExecBlock(p, ss[1..], env1, n)
            case o => o
  {
    hide GenStmt, LegalStmt, Exec, Prefixes, FlushSince;
    FlushNext(GenStmt(p, ss[0], cg), 0);
  }

  ghost predicate Narrower(c': Ctx, c: Ctx) {
    && c'.borrowed == c.borrowed && c'.ints <= c.ints && c'.exact == c.exact
    && c'.owned <= c.owned && (c.exact ==> c'.owned == c.owned)
  }

  /** What holds in a context holds in a narrower one. */
  lemma AgreesNarrow(w: World, out: Outcome, n: nat, st: State, r: Run, cg: CG, ce: CG, a: Ctx, b: Ctx, a': Ctx, b': Ctx)
    requires st.Running? && Ok(ce) && Agrees(w, out, n, st, r, cg, ce, a, b)
    requires a'.exact == a.exact && Narrower(Outside(a'), Outside(a)) && Narrower(b', b) && b'.exact == a.exact
    ensures Agrees(w, out, n, st, r, cg, ce, a', b')
  {
    hide Inv, Terminated, Steps, SameFrame, Keeps, StillRuns, Returned;
    match out
    case Normal(env) => InvNarrow(ce.moved, ce.temps, ce.next, b, b', r.st.top, r.st.heap, env, w.ext);
    case Brk(env) => InvNarrow(cg.moved, [], 0, Outside(a), Outside(a'), r.st.top, r.st.heap, env, w.ext);
    case Cont(env) => InvNarrow(cg.moved, [], 0, Outside(a), Outside(a'), r.st.top, r.st.heap, env, w.ext);
    case _ =>
  }

  /** The context after one statement is at least the one before it. */
  lemma AfterNarrows(p: Program, s: Stmt, cg: CG, ce: CG, c: Ctx)
    requires Ok(cg) && cg.scopes != []
    ensures var c1 := ReleaseTemps(GenStmt(p, s, cg)); Narrower(Outside(At(cg, c)), Outside(At(c1, After(s, c))))
    ensures Narrower(At(ce, c), At(ce, After(s, c))) && After(s, c).exact == c.exact
  {
    hide GenStmt, ReleaseTemps, Flat;
    FlatFollows(cg, GenStmt(p, s, cg));
  }

  lemma ReadyAfter(w: World, s: Stmt, c: Ctx)
    requires Ready(w, c)
    ensures Ready(w, After(s, c))
  {
  }

  lemma AfterLater(w: World, out: Outcome, n: nat, st: State, k0: nat, s1: State, r: Run, s: Stmt, cg: CG, ce: CG, c: Ctx)
    returns (r': Run)
    requires Ok(cg) && cg.scopes != [] && LegalStmt(w.p, s, cg, c) && Ok(ce)
    requires Leads(w.code, st, k0, s1, cg.next)
    requires
      var c1 := ReleaseTemps(GenStmt(w.p, s, cg));
      Agrees(w, out, n, s1, r, c1, ce, At(cg, c), At(ce, c))
    ensures Agrees(w, out, n, st, r', cg, ce, At(cg, c), At(ce, c))
  {
    hide GenStmt, LegalStmt, ReleaseTemps, Flat, Inv, Steps, SameFrame, Keeps;
    var c1 := ReleaseTemps(GenStmt(w.p, s, cg));
    if cg.loops.InLoop? { LoopStmtMoves(w.p, s, cg, c); }
    if out.Normal? {
      LeadsTrans(w.code, st, k0, s1, r.k, r.st, cg.next, c1.next);
      r' := r.(k := k0 + r.k);
    } else {
      r' := AgreesLater(w, out, n, st, k0, s1, r, cg, c1, ce, ce, At(cg, c), At(ce, c), At(ce, c));
    }
  }

  lemma NestedParts(p: Program, s: Stmt, cg: CG, c: Ctx, env: Env, n: nat)
    requires Ok(cg) && cg.scopes != [] && s.Block? && LegalStmt(p, s, cg, c)
    ensures LegalBlock(p, s.body, cg, c) && GenStmt(p, s, cg) == GenBlock(p, s.body, cg)
    ensures Exec(p, s, env, n) == ExecBlock(p, s.body, env, n)
  {
    hide LegalBlock, GenBlock, ExecBlock;
  }

  // ---- Loops ----

  /** One turn of a loop body: on to the continue target, out to the break target, or gone. */
  ghost predicate Turns(w: World, out: Outcome, n: nat, st: State, r: Run, ws: CG, c: Ctx)
    requires st.Running?
  {
    match out
    case TimedOut => StillRuns(w.code, st, r.k, n)
    case Ret(v) => Returned(w, st, r.k, r.o, r.h, v, c.exact)
    case Brk(env) =>
      ws.loops.InLoop? && Reaches(w, st, r.k, r.st, ws.next, ws.loops.breakTo, ws.moved, [], 0, c, env)
    case o =>
      && ws.loops.InLoop? && r.k > 0
      && Reaches(w, st, r.k, r.st, ws.next, ws.loops.continueTo, ws.moved, [], 0, c, o.env)
  }

  lemma BlockParts(p: Program, ss: seq<Stmt>, ws: CG, c: Ctx, b: nat)
    requires Ok(ws) && ws.temps == [] && ws.loops.InLoop? && LegalBlock(p, ss, ws, c)
    ensures
      var ce := GenBlock(p, ss, ws);
      && ce.temps == [] && ce.moved == ws.moved && ws.next <= ce.next
      && Prefixes(ce.blocks, JoinTo(ce, b).blocks)
  {
    hide GenBlock, LegalBlock;
    LoopBlockMoves(p, ss, ws, c);
  }

  /** Arriving at the empty exit block of a loop. */
  lemma LoopExit(w: World, n: nat, st: State, k: nat, s1: State, m: Reg, next: Reg, cg: CG, ce: CG, c: Ctx, c': Ctx, env: Env)
    returns (r: Run)
    requires Ok(ce) && Here(ce) == 0 && ce.moved == cg.moved && ce.temps == [] && cg.next <= m
    requires Reaches(w, st, k, s1, m, ce.cur, cg.moved, [], next, c, env) && Narrower(c', c)
    ensures Agrees(w, Normal(env), n, st, r, cg, ce, c', c')
  {
    hide Inv, Steps, Keeps;
    InvNoTemps(cg.moved, next, ce.next, c, s1.top, s1.heap, env, w.ext);
    InvNarrow(cg.moved, [], ce.next, c, c', s1.top, s1.heap, env, w.ext);
    r := Run(k, s1, 0, s1.heap);
  }

  lemma TimeoutAgrees(w: World, n: nat, st: State, r: Run, cg: CG, ce: CG, c: Ctx)
    requires st.Running? && Ok(ce) && StillRuns(w.code, st, r.k, n)
    ensures Agrees(w, TimedOut, n, st, r, cg, ce, c, c)
  {
  }

  /** Steps of the same statement before the ones that decide. */
  lemma SameLater(w: World, out: Outcome, n: nat, st: State, k0: nat, s1: State, r: Run, cg: CG, ce: CG, c: Ctx)
    returns (r': Run)
    requires Leads(w.code, st, k0, s1, cg.next) && Ok(ce)
    requires Agrees(w, out, n, s1, r, cg, ce, c, c)
    ensures Agrees(w, out, n, st, r', cg, ce, c, c) && r'.k == k0 + r.k
  {
    hide Inv, Steps, SameFrame, Keeps, Returned;
    r' := r.(k := k0 + r.k);
    match out
    case TimedOut => StillRunsLater(w.code, st, k0, s1, r.k, n);
    case Ret(v) => ReturnedLater(w, st, k0, s1, cg.next, r.k, r.o, r.h, v, c.exact);
    case _ => LeadsTrans(w.code, st, k0, s1, r.k, r.st, cg.next, cg.next);
  }

  /** A later round decides; each round takes at least one step. */
  lemma AgainLater(w: World, out: Outcome, n: nat, st: State, k0: nat, s1: State, r: Run, cg: CG, ce: CG, c: Ctx)
    returns (r': Run)
    requires n > 0 && k0 > 0 && Leads(w.code, st, k0, s1, cg.next) && Ok(ce)
    requires Agrees(w, out, n - 1, s1, r, cg, ce, c, c)
    ensures Agrees(w, out, n, st, r', cg, ce, c, c)
  {
    hide Inv, Steps, SameFrame, Keeps, Returned;
    r' := r.(k := k0 + r.k);
    match out
    case TimedOut => StillRunsLater(w.code, st, k0, s1, r.k, n - 1);
    case Ret(v) => ReturnedLater(w, st, k0, s1, cg.next, r.k, r.o, r.h, v, c.exact);
    case _ => LeadsTrans(w.code, st, k0, s1, r.k, r.st, cg.next, cg.next);
  }

  /** A turn after `k0` steps that does not come back to the loop. */
  lemma TurnLeaves(w: World, out: Outcome, n: nat, st: State, k0: nat, s1: State, r: Run, ws: CG, cg: CG, ce: CG,
                   c: Ctx, c': Ctx)
    returns (r': Run)
    requires Leads(w.code, st, k0, s1, cg.next) && Turns(w, out, n, s1, r, ws, c) && cg.next <= ws.next
    requires Ok(ce) && Here(ce) == 0 && ce.moved == cg.moved == ws.moved && ce.temps == []
    requires ws.loops.InLoop? && ce.cur == ws.loops.breakTo && Narrower(c', c)
    requires out.TimedOut? || out.Ret? || out.Brk?
    ensures Agrees(w, if out.Brk? then Normal(out.env) else out, n, st, r', cg, ce, c', c')
  {
    hide Inv, Steps, SameFrame, Keeps, Returned;
    r' := r.(k := k0 + r.k);
    match out
    case TimedOut => StillRunsLater(w.code, st, k0, s1, r.k, n);
    case Ret(v) => ReturnedLater(w, st, k0, s1, cg.next, r.k, r.o, r.h, v, c.exact);
    case Brk(env) =>
      LeadsTrans(w.code, st, k0, s1, r.k, r.st, cg.next, ws.next);
      r' := LoopExit(w, n, st, k0 + r.k, r.st, cg.next, 0, cg, ce, c, c', env);
  }

  /** The context at the start of a loop body, whose jumps leave nothing behind. */
  ghost predicate AtLoop(ws: CG, cg: CG, c: Ctx) {
    && At(ws, Inside(cg, c)) == At(cg, Inside(cg, c)) && Outside(At(ws, Inside(cg, c))) == At(ws, Inside(cg, c))
  }

  /** The invariant does not depend on what was outside the loop. */
  lemma InvInside(moved: set<Var>, next: Reg, cg: CG, c: Ctx, f: Frame, h: Heap, env: Env, ext: multiset<Obj>)
    ensures Inv(moved, [], next, At(cg, c), f, h, env, ext)
       <==> Inv(moved, [], next, At(cg, Inside(cg, c)), f, h, env, ext)
  {
    hide Owns, Flat, Denotes, VarRefs, Distinct, TempsOk;
    var a, b := At(cg, c), At(cg, Inside(cg, c));
    assert forall x :: Readable(a, moved, x) <==> Readable(b, moved, x);
  }

  lemma ReadyInside(w: World, cg: CG, c: Ctx)
    requires Ready(w, c)
    ensures Ready(w, Inside(cg, c))
  {
    hide Flat;
  }

  // ---- While ----

  /** The blocks of a while loop. */
  lemma WhileShape(p: Program, s: Stmt, cg: CG, c: Ctx)
    requires Ok(cg) && cg.scopes != [] && cg.temps == [] && s.While? && LegalStmt(p, s, cg, c)
    ensures
      var b := |cg.blocks|;
      var ws, ce := WhileStart(p, s, cg), GenWhile(p, s, cg);
      && ws.loops == InLoop(b, b + 2, cg.loops) && ws.moved == ce.moved == cg.moved && ce.temps == ws.temps == []
      && ws.scopes == ce.scopes == cg.scopes && ws.cur == b + 1 && ws.blocks[b + 1] == []
      && ce.cur == b + 2 && Here(ce) == 0 && cg.next <= ws.next
      && LegalBlock(p, s.body, ws, Inside(cg, c)) && LegalB(p, s.cond, cg.moved, At(cg, c))
    ensures GenStmt(p, s, cg) == GenWhile(p, s, cg)
  {
    hide GenCond, GenBlock, LegalB, LegalBlock, Flat, MovesB;
    assert LegalWhile(p, s, cg, c);
    WhileMoves(p, s, cg, c);
    GenCondMoves(p, s.cond, OpenWhile(cg));
  }

  lemma WhileLinks(code: Code, fn: nat, p: Program, s: Stmt, cg: CG)
    requires Ok(cg) && s.While? && Linked(code, fn, GenWhile(p, s, cg))
    ensures
      var (c2, v) := GenCond(p, s.cond, OpenWhile(cg));
      && Linked(code, fn, OpenWhile(cg)) && Linked(code, fn, c2) && Linked(code, fn, EnterWhile(c2, v, |cg.blocks|))
      && Linked(code, fn, JoinTo(GenBlock(p, s.body, WhileStart(p, s, cg)), |cg.blocks|))
      && cg.next <= OpenWhile(cg).next <= c2.next <= WhileStart(p, s, cg).next
      && WhileStart(p, s, cg) == EnterWhile(c2, v, |cg.blocks|) && |cg.blocks| + 2 < |c2.blocks|
  {
    assert |OpenWhile(cg).blocks| <= |GenCond(p, s.cond, OpenWhile(cg)).0.blocks|;
    hide GenCond, GenBlock, Prefixes, OpenWhile, EnterWhile;
    var ws := WhileStart(p, s, cg);
    var ce := GenBlock(p, s.body, ws);
    var (c2, v) := GenCond(p, s.cond, OpenWhile(cg));
    LinkedSame(code, fn, JoinTo(ce, |cg.blocks|), GenWhile(p, s, cg));
    LinkedBefore(code, fn, ce, JoinTo(ce, |cg.blocks|));
    LinkedBefore(code, fn, ws, ce);
    LinkedBefore(code, fn, c2, ws);
    LinkedBefore(code, fn, OpenWhile(cg), c2);
  }

  lemma EnterLinks(code: Code, fn: nat, c2: CG, v: Operand, cond: nat)
    requires Ok(c2) && cond + 2 < |c2.blocks| && !Terminated(c2) && Linked(code, fn, EnterWhile(c2, v, cond))
    ensures
      var c3 := FlushSince(c2, 0);
      && c3.next == c2.next && c3.moved == c2.moved && c3.temps == []
      && Linked(code, fn, c3) && Linked(code, fn, Emit(c3, CondBr(v, cond + 1, cond + 2)))
  {
    var c3 := FlushSince(c2, 0);
    FlushNext(c2, 0);
    hide FlushSince;
    LinkedSame(code, fn, Emit(c3, CondBr(v, cond + 1, cond + 2)), EnterWhile(c2, v, cond));
    LinkedBefore(code, fn, c3, EnterWhile(c2, v, cond));
  }

  /** The end of a loop condition: flush its temporaries and branch. */
  lemma SimLoopTest(w: World, c2: CG, v: Operand, b: bool, cond: nat, c: Ctx, st: State, env: Env)
    returns (k: nat, st': State)
    requires Good(c2, c, st, env, w.ext) && HasBool(st.top, v, c2.next, b) && !Terminated(c2)
    requires cond + 2 < |c2.blocks| && Linked(w.code, st.top.fn, EnterWhile(c2, v, cond))
    ensures Reaches(w, st, k, st', c2.next, if b then cond + 1 else cond + 2, c2.moved, [], c2.next, c, env)
  {
    hide Inv, Steps, Keeps, Prefixes, FlushSince;
    EnterLinks(w.code, st.top.fn, c2, v, cond);
    var k1, s1 := SimFlush(w, 0, c2, c, st, env);
    hide Linked;
    HasBoolKept(st.top, s1.top, v, c2.next, b);
    st' := CondBrStep(w, FlushSince(c2, 0), v, b, cond + 1, cond + 2, c, s1, env);
    LeadsTrans(w.code, st, k1, s1, 1, st', c2.next, c2.next);
    k := k1 + 1;
  }

  lemma ExecWhile(p: Program, s: Stmt, env: Env, n: nat)
    requires s.While? && n > 0
    ensures Exec(p, s, env, n)
         == match EvalB(p, s.cond, env, n)
            case Timeout => TimedOut
            case Val(b) =>
              if !b then Normal(env)
              else
                match ExecBlock(p, s.body, env, n)
                case Normal(env1) => Exec(p, s, env1, n - 1)
                case Cont(env1) => Exec(p, s, env1, n - 1)
                case Brk(env1) => Normal(env1)
                case o => o
  {
    hide EvalB, ExecBlock, EvalS;
  }

  /** No fuel: nothing is claimed yet. */
  lemma NoFuel(w: World, s: Stmt, cg: CG, ce: CG, c: Ctx, st: State, env: Env) returns (r: Run)
    requires (s.While? || s.Forever?) && st.Running? && Ok(ce)
    ensures Agrees(w, Exec(w.p, s, env, 0), 0, st, r, cg, ce, c, c)
  {
    r := Run(0, st, 0, st.heap);
  }

  /** At the first instruction of the condition block of a while loop. */
  ghost predicate AtHead(w: World, s: Stmt, cg: CG, c: Ctx, st: State, env: Env) {
    && Ok(cg) && cg.scopes != [] && cg.temps == []
    && st.Running? && At0(|cg.blocks|, st.top)
    && Inv(cg.moved, [], 0, At(cg, c), st.top, st.heap, env, w.ext)
    && LegalStmt(w.p, s, cg, c)
    && Linked(w.code, st.top.fn, GenStmt(w.p, s, cg))
  }

  lemma OpenGood(w: World, cg: CG, c: Ctx, st: State, env: Env)
    requires Ok(cg) && cg.temps == [] && st.Running? && At0(|cg.blocks|, st.top)
    requires Inv(cg.moved, [], 0, c, st.top, st.heap, env, w.ext)
    ensures Good(OpenWhile(cg), c, st, env, w.ext)
  {
    hide Inv;
    InvNoTemps(cg.moved, 0, cg.next, c, st.top, st.heap, env, w.ext);
  }

  /** The jump into the condition block. */
  lemma SimOpen(w: World, cg: CG, c: Ctx, st: State, env: Env) returns (st': State)
    requires Good(cg, c, st, env, w.ext) && Linked(w.code, st.top.fn, OpenWhile(cg)) && cg.temps == []
    ensures Leads(w.code, st, 1, st', cg.next) && At0(|cg.blocks|, st'.top)
    ensures Inv(cg.moved, [], 0, c, st'.top, st'.heap, env, w.ext)
  {
    hide Inv, Prefixes;
    var c1 := AddBlocks(cg, 3);
    LinkedSame(w.code, st.top.fn, Emit(c1, Br(|cg.blocks|)), OpenWhile(cg));
    st' := BrStep(w, c1, |cg.blocks|, c, st, env);
    InvNoTemps(cg.moved, cg.next, 0, c, st'.top, st'.heap, env, w.ext);
  }

  /** The condition of a while loop, up to the first instruction of the body or the exit. */
  ghost predicate Tested(w: World, e: BExpr, cg: CG, c: Ctx, st: State, env: Env, n: nat, k: nat, st': State)
    requires Ok(cg)
  {
    match EvalB(w.p, e, env, n)
    case Timeout => StillRuns(w.code, st, k, n)
    case Val(b) =>
      && k > 0
      && Reaches(w, st, k, st', cg.next, if b then |cg.blocks| + 1 else |cg.blocks| + 2, cg.moved, [], 0, c, env)
  }

  /** A run that changes blocks takes a step. */
  lemma MovedOn(code: Code, st: State, k: nat, st': State, next: Reg)
    requires Leads(code, st, k, st', next) && st'.top.bb != st.top.bb
    ensures k > 0
  {
  }

  lemma WhileBodyGood(w: World, s: Stmt, cg: CG, c: Ctx, st: State, env: Env)
    requires Ok(cg) && cg.scopes != [] && cg.temps == [] && s.While? && LegalStmt(w.p, s, cg, c)
    requires st.Running? && At0(|cg.blocks| + 1, st.top)
    requires Inv(cg.moved, [], 0, At(cg, c), st.top, st.heap, env, w.ext)
    ensures
      var ws := WhileStart(w.p, s, cg);
      && Good(ws, At(ws, Inside(cg, c)), st, env, w.ext) && AtLoop(ws, cg, c) && !Terminated(ws)
  {
    hide Inv, LegalStmt, WhileStart, GenWhile, Flat, GenStmt;
    WhileShape(w.p, s, cg, c);
    InvNoTemps(cg.moved, 0, WhileStart(w.p, s, cg).next, At(cg, c), st.top, st.heap, env, w.ext);
    InvInside(cg.moved, WhileStart(w.p, s, cg).next, cg, c, st.top, st.heap, env, w.ext);
  }

  // ---- Forever ----

  lemma ForeverShape(p: Program, s: Stmt, cg: CG, c: Ctx)
    requires Ok(cg) && cg.scopes != [] && cg.temps == [] && s.Forever? && LegalStmt(p, s, cg, c)
    ensures
      var b := |cg.blocks|;
      var ws, ce := EnterForever(cg), GenForever(p, s, cg);
      && ws.loops == InLoop(b, b + 1, cg.loops) && ws.moved == ce.moved == cg.moved && ce.temps == ws.temps == []
      && ws.scopes == ce.scopes == cg.scopes && ws.cur == b && ws.blocks[b] == []
      && ce.cur == b + 1 && Here(ce) == 0 && cg.next <= ws.next && LegalBlock(p, s.body, ws, Inside(cg, c))
    ensures GenStmt(p, s, cg) == GenForever(p, s, cg)
  {
    hide GenBlock, LegalBlock, Flat;
    LoopBlockMoves(p, s.body, EnterForever(cg), Inside(cg, c));
  }

  lemma ForeverLinks(code: Code, fn: nat, p: Program, s: Stmt, cg: CG)
    requires Ok(cg) && s.Forever? && Linked(code, fn, GenForever(p, s, cg))
    ensures Linked(code, fn, EnterForever(cg))
    ensures Linked(code, fn, JoinTo(GenBlock(p, s.body, EnterForever(cg)), |cg.blocks|))
  {
    hide GenBlock, Prefixes, EnterForever;
    var ws := EnterForever(cg);
    var ce := GenBlock(p, s.body, ws);
    LinkedSame(code, fn, JoinTo(ce, |cg.blocks|), GenForever(p, s, cg));
    LinkedBefore(code, fn, ce, JoinTo(ce, |cg.blocks|));
    LinkedBefore(code, fn, ws, ce);
  }

  lemma ExecForever(p: Program, s: Stmt, env: Env, n: nat)
    requires s.Forever? && n > 0
    ensures Exec(p, s, env, n)
         == match ExecBlock(p, s.body, env, n)
            case Normal(env1) => Exec(p, s, env1, n - 1)
            case Cont(env1) => Exec(p, s, env1, n - 1)
            case Brk(env1) => Normal(env1)
            case o => o
  {
    hide ExecBlock;
  }

  lemma SimEnterForever(w: World, cg: CG, c: Ctx, st: State, env: Env) returns (st': State)
    requires Good(cg, c, st, env, w.ext) && Linked(w.code, st.top.fn, EnterForever(cg)) && cg.temps == []
    ensures Leads(w.code, st, 1, st', cg.next) && At0(|cg.blocks|, st'.top)
    ensures Inv(cg.moved, [], 0, c, st'.top, st'.heap, env, w.ext)
  {
    hide Inv, Prefixes;
    var c1 := AddBlocks(cg, 2);
    LinkedSame(w.code, st.top.fn, Emit(c1, Br(|cg.blocks|)), EnterForever(cg));
    st' := BrStep(w, c1, |cg.blocks|, c, st, env);
    InvNoTemps(cg.moved, cg.next, 0, c, st'.top, st'.heap, env, w.ext);
  }

  lemma ForeverBodyGood(w: World, s: Stmt, cg: CG, c: Ctx, st: State, env: Env)
    requires s.Forever? && AtHead(w, s, cg, c, st, env)
    ensures
      var ws := EnterForever(cg);
      && Good(ws, At(ws, Inside(cg, c)), st, env, w.ext) && AtLoop(ws, cg, c) && !Terminated(ws)
  {
    hide Inv, LegalStmt, EnterForever, GenForever, Flat, GenStmt;
    ForeverShape(w.p, s, cg, c);
    InvNoTemps(cg.moved, 0, EnterForever(cg).next, At(cg, c), st.top, st.heap, env, w.ext);
    InvInside(cg.moved, EnterForever(cg).next, cg, c, st.top, st.heap, env, w.ext);
  }

  // ---- Range loops ----

  lemma CountingFacts(w: World, s: Stmt, cg: CG, c: Ctx)
    requires s.ForRange? && Ready(w, c)
    ensures Ready(w, Counting(s, c)) && Narrower(At(cg, c), At(cg, Counting(s, c)))
    ensures s.ix in At(cg, Counting(s, c)).ints
  {
    hide Flat;
  }

  lemma RangeLegal(p: Program, s: Stmt, cg: CG, c: Ctx)
    requires Ok(cg) && cg.scopes != [] && s.ForRange? && LegalStmt(p, s, cg, c)
    ensures LegalBlock(p, s.body, RangeStart(s, cg), Inside(cg, Counting(s, c))) && LegalI(s.lo, c) && LegalI(s.hi, c)
    ensures GenStmt(p, s, cg) == GenRange(p, s, cg)
  {
    hide LegalBlock, RangeStart, LegalI, GenRange;
  }

  /** The code of a range loop up to its increment block. */
  function RangeJoin(p: Program, s: Stmt, cg: CG): (r: CG)
    requires Ok(cg) && s.ForRange?
    ensures Ok(r)
  {
    JoinTo(GenBlock(p, s.body, RangeStart(s, cg)), |cg.blocks| + 2)
  }

  lemma RangeShape(p: Program, s: Stmt, cg: CG)
    requires Ok(cg) && cg.temps == [] && s.ForRange?
    ensures
      var b := |cg.blocks|;
      var ws := RangeStart(s, cg);
      && ws.loops == InLoop(b + 2, b + 3, cg.loops) && ws.moved == cg.moved && ws.temps == []
      && ws.scopes == cg.scopes && ws.cur == b + 1 && ws.blocks[b + 1] == [] && cg.next <= ws.next
  {
    hide RangeStart;
    RangeStartEmpty(s, cg);
  }

  lemma RangeJoinShape(p: Program, s: Stmt, cg: CG, c: Ctx)
    requires Ok(cg) && cg.scopes != [] && cg.temps == [] && s.ForRange? && LegalStmt(p, s, cg, c)
    ensures
      var b := |cg.blocks|;
      var cj := RangeJoin(p, s, cg);
      && b + 3 < |cj.blocks| && cj.loops.InLoop? && cj.blocks[b + 2] == [] && cj.blocks[b + 3] == []
      && cj.temps == [] && cj.moved == cg.moved && RangeStart(s, cg).next <= cj.next && cj.scopes == cg.scopes
      && GenRange(p, s, cg) == LeaveRange(cj, s.ix, b)
  {
    hide GenBlock, LegalBlock, RangeStart, LegalI, LegalStmt, LeaveRange;
    RangeLegal(p, s, cg, c);
    RangeShape(p, s, cg);
    RangeStartEmpty(s, cg);
    LoopBlockMoves(p, s.body, RangeStart(s, cg), Inside(cg, Counting(s, c)));
  }

  lemma RangeEnd(p: Program, s: Stmt, cg: CG, c: Ctx)
    requires Ok(cg) && cg.scopes != [] && cg.temps == [] && s.ForRange? && LegalStmt(p, s, cg, c)
    ensures
      var ce := GenRange(p, s, cg);
      && ce.moved == cg.moved && ce.temps == [] && ce.scopes == cg.scopes && ce.cur == |cg.blocks| + 3 && Here(ce) == 0
  {
    hide LegalStmt, RangeJoin, LeaveRange, GenRange, RangeStart;
    RangeJoinShape(p, s, cg, c);
  }

  lemma RangeStartEmpty(s: Stmt, cg: CG)
    requires Ok(cg) && s.ForRange?
    ensures
      var ws := RangeStart(s, cg);
      && ws.blocks[|cg.blocks| + 1] == [] && ws.blocks[|cg.blocks| + 2] == [] && ws.blocks[|cg.blocks| + 3] == []
  {
    hide Bounds;
  }

  /** What follows a round: the counter is increased and the test is repeated. */
  function NextRound(c1: CG, x: Var, b: nat): (r: CG)
    requires Ok(c1)
    ensures Ok(r) && c1.next <= r.next
  {
    var c2 := Emit(Fresh(c1), LoadInt(c1.next, x));
    var c3 := Emit(Fresh(c2), IntArith(c2.next, Add, Tmp(c1.next), Imm(1)));
    Emit(Emit(c3, StoreInt(x, Tmp(c2.next))), Br(b))
  }

  lemma RangeLinks(code: Code, fn: nat, p: Program, s: Stmt, cg: CG, c: Ctx)
    requires Ok(cg) && cg.scopes != [] && cg.temps == [] && s.ForRange? && LegalStmt(p, s, cg, c)
    requires Linked(code, fn, GenRange(p, s, cg))
    ensures
      var b := |cg.blocks|;
      var cj := RangeJoin(p, s, cg);
      && b + 3 < |cj.blocks| && Linked(code, fn, cj) && Linked(code, fn, RangeStart(s, cg))
      && Linked(code, fn, NextRound(SetInsertPoint(cj, b + 2), s.ix, b))
  {
    hide LegalStmt, GenBlock, RangeStart, GenRange, Here, Prefixes;
    RangeJoinShape(p, s, cg, c);
    var b := |cg.blocks|;
    var ws, cj := RangeStart(s, cg), RangeJoin(p, s, cg);
    LinkedSame(code, fn, NextRound(SetInsertPoint(cj, b + 2), s.ix, b), LeaveRange(cj, s.ix, b));
    LinkedBefore(code, fn, cj, LeaveRange(cj, s.ix, b));
    LinkedBefore(code, fn, GenBlock(p, s.body, ws), cj);
    LinkedBefore(code, fn, ws, GenBlock(p, s.body, ws));
  }

  lemma RangeStartLinks(code: Code, fn: nat, s: Stmt, cg: CG)
    requires Ok(cg) && s.ForRange? && Linked(code, fn, RangeStart(s, cg))
    ensures
      var b := |cg.blocks|;
      var (c2, v, w) := Bounds(s.lo, s.hi, cg);
      var c4 := RangeInit(c2, s.ix, v);
      && |c2.blocks| == b && cg.next <= c2.next <= c4.next <= RangeStart(s, cg).next
      && Linked(code, fn, c2) && Linked(code, fn, c4) && Linked(code, fn, RangeTest(c4, s.ix, w, b))
  {
    hide Bounds, Prefixes, RangeInit, RangeTest;
    var (c2, v, w) := Bounds(s.lo, s.hi, cg);
    var c4 := RangeInit(c2, s.ix, v);
    LinkedSame(code, fn, RangeTest(c4, s.ix, w, |cg.blocks|), RangeStart(s, cg));
    LinkedBefore(code, fn, c4, RangeTest(c4, s.ix, w, |cg.blocks|));
    LinkedBefore(code, fn, c2, c4);
  }

  /** Reading the counter. */
  lemma CounterStep(w: World, cg: CG, x: Var, c: Ctx, st: State, env: Env) returns (st': State)
    requires Good(cg, c, st, env, w.ext) && x in c.ints
    requires Linked(w.code, st.top.fn, Emit(Fresh(cg), LoadInt(cg.next, x)))
    ensures Arrives(w.code, st, 1, st', cg, Emit(Fresh(cg), LoadInt(cg.next, x)), c, env, w.ext)
    ensures HasInt(st'.top, Tmp(cg.next), cg.next + 1, EvalI(IVar(x), env))
  {
    hide Prefixes, Owns, Denotes;
    st' := IntStep(w.code, st.top.fn, cg, LoadInt(cg.next, x), st, c, env, w.ext, EvalI(IVar(x), env));
  }

  /** An operation on two known integers. */
  lemma BinaryStep(w: World, i: Instr, v: Operand, u: Operand, m: int, n: int, r: int, cg: CG, c: Ctx, st: State, env: Env)
    returns (st': State)
    requires Good(cg, c, st, env, w.ext) && HasInt(st.top, v, cg.next, m) && HasInt(st.top, u, cg.next, n)
    requires (i == IntCmp(cg.next, Lt, v, u) && r == BoolInt(m < n)) || (i == IntArith(cg.next, Add, v, u) && r == Wrap(m + n))
    requires Linked(w.code, st.top.fn, Emit(Fresh(cg), i))
    ensures Arrives(w.code, st, 1, st', cg, Emit(Fresh(cg), i), c, env, w.ext)
    ensures HasInt(st'.top, Tmp(cg.next), cg.next + 1, r)
  {
    hide Prefixes, Inv, Wrap;
    st' := IntStep(w.code, st.top.fn, cg, i, st, c, env, w.ext, r);
  }

  /** Load the counter, compare it with the bound, branch. */
  lemma SimRangeTest(w: World, c4: CG, x: Var, bound: Operand, m: Reg, b: nat, hi: int, c: Ctx, st: State, env: Env)
    returns (st': State)
    requires Good(c4, c, st, env, w.ext) && x in c.ints && HasInt(st.top, bound, m, hi) && m <= c4.next
    requires Linked(w.code, st.top.fn, RangeTest(c4, x, bound, b))
    ensures Reaches(w, st, 3, st', c4.next, if EvalI(IVar(x), env) < hi then b + 1 else b + 3,
                    c4.moved, c4.temps, RangeTest(c4, x, bound, b).next, c, env)
  {
    hide Steps, Keeps, Inv, Linked, Prefixes, EvalI, SameFrame, SameSlots;
    var n := EvalI(IVar(x), env);
    var c5 := Emit(Fresh(c4), LoadInt(c4.next, x));
    var i := IntCmp(c5.next, Lt, Tmp(c4.next), bound);
    var c6 := Emit(Fresh(c5), i);
    LinkedBefore(w.code, st.top.fn, c6, RangeTest(c4, x, bound, b));
    LinkedBefore(w.code, st.top.fn, c5, c6);
    var s1 := CounterStep(w, c4, x, c, st, env);
    LeadsSame(w.code, st, 1, s1, c4.next);
    HasIntKept(st.top, s1.top, bound, m, hi, c5.next) by { SameFrameLess(st.top, s1.top, c4.next, m); }
    var s2 := BinaryStep(w, i, Tmp(c4.next), bound, n, hi, BoolInt(n < hi), c5, c, s1, env);
    LeadsSame(w.code, s1, 1, s2, c5.next);
    st' := CondBrStep(w, c6, Tmp(c5.next), n < hi, b + 1, b + 3, c, s2, env);
    LeadsTrans(w.code, st, 1, s1, 1, s2, c4.next, c5.next);
    LeadsTrans(w.code, st, 2, s2, 1, st', c4.next, c6.next);
  }

  lemma SameFrameLess(f: Frame, g: Frame, next: Reg, less: Reg)
    requires SameFrame(f, g, next) && less <= next
    ensures SameFrame(f, g, less)
  {
  }

  /** Increase the counter and go back to the test. */
  lemma SimNextRound(w: World, c1: CG, x: Var, b: nat, c: Ctx, st: State, env: Env) returns (st': State)
    requires Good(c1, c, st, env, w.ext) && x in c.ints && c1.temps == []
    requires Linked(w.code, st.top.fn, NextRound(c1, x, b))
    ensures Reaches(w, st, 4, st', c1.next, b, c1.moved, [], 0, c, Bump(env, x))
  {
    hide Steps, Keeps, Inv, Linked, Prefixes, EvalI, SameFrame, SameSlots, Wrap;
    var n := EvalI(IVar(x), env);
    var c2 := Emit(Fresh(c1), LoadInt(c1.next, x));
    var i := IntArith(c2.next, Add, Tmp(c1.next), Imm(1));
    var c3 := Emit(Fresh(c2), i);
    LinkedBefore(w.code, st.top.fn, Emit(c3, StoreInt(x, Tmp(c2.next))), NextRound(c1, x, b));
    LinkedBefore(w.code, st.top.fn, c3, Emit(c3, StoreInt(x, Tmp(c2.next))));
    LinkedBefore(w.code, st.top.fn, c2, c3);
    var s1 := CounterStep(w, c1, x, c, st, env);
    LeadsSame(w.code, st, 1, s1, c1.next);
    var s2 := BinaryStep(w, i, Tmp(c1.next), Imm(1), n, 1, Wrap(n + 1), c2, c, s1, env);
    LeadsSame(w.code, s1, 1, s2, c2.next);
    LeadsTrans(w.code, st, 1, s1, 1, s2, c1.next, c2.next);
    st' := SimStoreCounter(w, c3, x, c2.next, b, c, s2, env, Wrap(n + 1));
    LeadsTrans(w.code, st, 2, s2, 2, st', c1.next, c3.next);
    assert env.(ints := env.ints[x := Wrap(n + 1)]) == Bump(env, x);
  }

  lemma SimStoreCounter(w: World, c3: CG, x: Var, r: Reg, b: nat, c: Ctx, st: State, env: Env, n: int) returns (st': State)
    requires Good(c3, c, st, env, w.ext) && x in c.ints && c3.temps == [] && HasInt(st.top, Tmp(r), r + 1, n)
    requires Linked(w.code, st.top.fn, Emit(c3, StoreInt(x, Tmp(r))))
    requires Linked(w.code, st.top.fn, Emit(Emit(c3, StoreInt(x, Tmp(r))), Br(b)))
    ensures Reaches(w, st, 2, st', c3.next, b, c3.moved, [], 0, c, env.(ints := env.ints[x := n]))
  {
    hide Steps, Keeps, Inv, Linked, Prefixes, SameFrame, SameSlots;
    var c4 := Emit(c3, StoreInt(x, Tmp(r)));
    var env1 := env.(ints := env.ints[x := n]);
    var s3 := IntStoreStep(w, x, Tmp(r), c3, c, st, env, n);
    LeadsSame(w.code, st, 1, s3, c3.next);
    assert c.(ints := c.ints + {x}) == c;
    var s4 := BrStep(w, c4, b, c, s3, env1);
    LeadsTrans(w.code, st, 1, s3, 1, s4, c3.next, c4.next);
    InvNoTemps(c4.moved, c4.next, 0, c, s4.top, s4.heap, env1, w.ext);
    st' := s4;
  }

  lemma ExecRangeParts(p: Program, x: Var, hi: int, body: seq<Stmt>, env: Env, n: nat)
    ensures n == 0 ==> ExecRange(p, x, hi, body, env, n) == TimedOut
    ensures n > 0 ==>
      ExecRange(p, x, hi, body, env, n)
      == if !(EvalI(IVar(x), env) < hi) then Normal(env)
         else
           match ExecBlock(p, body, env, n)
           case Normal(env1) => ExecRange(p, x, hi, body, Bump(env1, x), n - 1)
           case Cont(env1) => ExecRange(p, x, hi, body, Bump(env1, x), n - 1)
           case Brk(env1) => Normal(env1)
           case o => o
  {
    hide ExecBlock, Bump;
  }

  /** Both bounds are computed before the counter is set. */
  lemma SimBounds(w: World, lo: IExpr, hi: IExpr, cg: CG, c: Ctx, st: State, env: Env) returns (k: nat, st': State)
    requires Good(cg, c, st, env, w.ext) && LegalI(lo, c) && LegalI(hi, c)
    requires Linked(w.code, st.top.fn, Bounds(lo, hi, cg).0)
    ensures
      var (c2, v, u) := Bounds(lo, hi, cg);
      && Arrives(w.code, st, k, st', cg, c2, c, env, w.ext)
      && HasInt(st'.top, v, c2.next, EvalI(lo, env)) && HasInt(st'.top, u, c2.next, EvalI(hi, env))
  {
    hide Inv, Keeps, LegalI, GenI, EvalI, Linked, Steps, Prefixes, SameSlots;
    var (c1, v) := GenI(lo, cg);
    LinkedBefore(w.code, st.top.fn, c1, Bounds(lo, hi, cg).0);
    var k1, s1 := SimI(w, lo, cg, c, st, env);
    var k2, s2 := SimI(w, hi, c1, c, s1, env);
    HasIntKept(s1.top, s2.top, v, c1.next, EvalI(lo, env), Bounds(lo, hi, cg).0.next);
    hide SameFrame;
    ArrivesTrans(w.code, st, k1, s1, k2, s2, cg, c1, Bounds(lo, hi, cg).0, c, env, w.ext);
    k, st' := k1 + k2, s2;
  }

  lemma SimSetCounter(w: World, c2: CG, x: Var, v: Operand, u: Operand, m: int, hi: int, c: Ctx, st: State, env: Env)
    returns (st': State)
    requires Good(c2, c, st, env, w.ext) && c2.temps == []
    requires HasInt(st.top, v, c2.next, m) && HasInt(st.top, u, c2.next, hi)
    requires Linked(w.code, st.top.fn, RangeInit(c2, x, v))
    ensures Reaches(w, st, 2, st', c2.next, |c2.blocks|, c2.moved, [], 0, c.(ints := c.ints + {x}),
                    env.(ints := env.ints[x := m]))
    ensures HasInt(st'.top, u, c2.next, hi)
  {
    hide Inv, Keeps, Linked, Steps, Prefixes, SameSlots;
    var c' := c.(ints := c.ints + {x});
    var env1 := env.(ints := env.ints[x := m]);
    var c3 := Emit(c2, StoreInt(x, v));
    var c4 := AddBlocks(c3, 4);
    LinkedSame(w.code, st.top.fn, Emit(c4, Br(|c2.blocks|)), RangeInit(c2, x, v));
    LinkedBefore(w.code, st.top.fn, c3, RangeInit(c2, x, v));
    var s1 := IntStoreStep(w, x, v, c2, c, st, env, m);
    LeadsSame(w.code, st, 1, s1, c2.next);
    HasIntKept(st.top, s1.top, u, c2.next, hi, c2.next);
    var s2 := BrStep(w, c4, |c2.blocks|, c', s1, env1);
    HasIntKept(s1.top, s2.top, u, c2.next, hi, c2.next);
    hide SameFrame;
    LeadsTrans(w.code, st, 1, s1, 1, s2, c2.next, c4.next);
    InvNoTemps(c4.moved, c4.next, 0, c', s2.top, s2.heap, env1, w.ext);
    st' := s2;
  }

  /** At the first instruction of the test of a range loop, with the bound in its register. */
  ghost predicate AtTest(w: World, s: Stmt, cg: CG, c: Ctx, st: State, env: Env, hi: int)
    requires s.ForRange?
  {
    && Ok(cg) && cg.scopes != [] && cg.temps == []
    && st.Running? && At0(|cg.blocks|, st.top)
    && Inv(cg.moved, [], 0, At(cg, Counting(s, c)), st.top, st.heap, env, w.ext)
    && HasInt(st.top, Bounds(s.lo, s.hi, cg).2, Bounds(s.lo, s.hi, cg).0.next, hi)
    && LegalStmt(w.p, s, cg, c)
    && Linked(w.code, st.top.fn, GenStmt(w.p, s, cg))
  }

  lemma SimRangeStart(w: World, s: Stmt, cg: CG, c: Ctx, st: State, env: Env) returns (k: nat, st': State)
    requires s.ForRange? && Begins(w, s, cg, c, st, env)
    ensures Leads(w.code, st, k, st', cg.next)
    ensures AtTest(w, s, cg, c, st', env.(ints := env.ints[s.ix := EvalI(s.lo, env)]), EvalI(s.hi, env))
  {
    hide Inv, Keeps, Linked, Steps, Prefixes, SameSlots, SameFrame, LegalStmt, GenStmt, GenRange, RangeStart, Bounds,
      RangeInit, RangeTest, LegalI, Flat, RangeJoin, NextRound, LegalBlock;
    RangeLegal(w.p, s, cg, c);
    RangeLinks(w.code, st.top.fn, w.p, s, cg, c);
    RangeStartLinks(w.code, st.top.fn, s, cg);
    LegalAt(s.lo, cg, c);
    LegalAt(s.hi, cg, c);
    var (c2, v, u) := Bounds(s.lo, s.hi, cg);
    var k1, s1 := SimBounds(w, s.lo, s.hi, cg, At(cg, c), st, env);
    LeadsSame(w.code, st, k1, s1, cg.next);
    var s2 := SimSetCounter(w, c2, s.ix, v, u, EvalI(s.lo, env), EvalI(s.hi, env), At(cg, c), s1, env);
    LeadsTrans(w.code, st, k1, s1, 2, s2, cg.next, c2.next);
    LeadsSame(w.code, st, k1 + 2, s2, cg.next);
    assert At(cg, c).(ints := c.ints + {s.ix}) == At(cg, Counting(s, c));
    k, st' := k1 + 2, s2;
  }

  /** The test of a range loop, up to the first instruction of the body or the exit. */
  lemma SimRangeRound(w: World, s: Stmt, cg: CG, c: Ctx, st: State, env: Env, hi: int) returns (st': State)
    requires s.ForRange? && AtTest(w, s, cg, c, st, env, hi)
    ensures
      Reaches(w, st, 3, st', Bounds(s.lo, s.hi, cg).0.next, if EvalI(IVar(s.ix), env) < hi then |cg.blocks| + 1 else |cg.blocks| + 3,
              cg.moved, [], 0, At(cg, Counting(s, c)), env)
  {
    hide Inv, Keeps, Linked, Steps, Prefixes, SameSlots, SameFrame, LegalStmt, GenStmt, GenRange, RangeStart, Bounds,
      RangeTest, LegalI, Flat, RangeJoin, NextRound, LegalBlock;
    RangeLegal(w.p, s, cg, c);
    RangeLinks(w.code, st.top.fn, w.p, s, cg, c);
    RangeStartLinks(w.code, st.top.fn, s, cg);
    CountingHas(s, cg, c);
    var (c2, v, u) := Bounds(s.lo, s.hi, cg);
    var c4 := RangeInit(c2, s.ix, v);
    InvNoTemps(cg.moved, 0, c4.next, At(cg, Counting(s, c)), st.top, st.heap, env, w.ext);
    hide RangeInit, HasInt;
    st' := SimRangeTest(w, c4, s.ix, u, c2.next, |cg.blocks|, hi, At(cg, Counting(s, c)), st, env);
    LeadsLess(w.code, st, 3, st', c4.next, c2.next);
    InvNoTemps(cg.moved, RangeTest(c4, s.ix, u, |cg.blocks|).next, 0, At(cg, Counting(s, c)), st'.top, st'.heap, env, w.ext);
  }

  lemma CountingHas(s: Stmt, cg: CG, c: Ctx)
    requires s.ForRange?
    ensures s.ix in At(cg, Counting(s, c)).ints
  {
  }

  /** The increment block of a range loop. */
  lemma SimRangeNext(w: World, s: Stmt, cg: CG, c: Ctx, st0: State, k0: nat, st: State, env0: Env, env: Env, hi: int)
    returns (st': State)
    requires s.ForRange? && AtTest(w, s, cg, c, st0, env0, hi)
    requires Reaches(w, st0, k0, st, Bounds(s.lo, s.hi, cg).0.next, |cg.blocks| + 2, cg.moved, [], 0, At(cg, Counting(s, c)), env)
    ensures Leads(w.code, st0, k0 + 4, st', cg.next)
    ensures AtTest(w, s, cg, c, st', Bump(env, s.ix), hi)
  {
    hide Inv, Keeps, Linked, Steps, Prefixes, SameSlots, SameFrame, LegalStmt, GenStmt, GenRange, RangeStart, Bounds,
      RangeInit, RangeTest, LegalI, Flat, RangeJoin, NextRound, LegalBlock, Bump, HasInt;
    RangeLegal(w.p, s, cg, c);
    RangeLinks(w.code, st0.top.fn, w.p, s, cg, c);
    RangeStartLinks(w.code, st0.top.fn, s, cg);
    RangeJoinShape(w.p, s, cg, c);
    CountingHas(s, cg, c);
    var b, m := |cg.blocks|, Bounds(s.lo, s.hi, cg).0.next;
    var c1 := SetInsertPoint(RangeJoin(w.p, s, cg), b + 2);
    LeadsSame(w.code, st0, k0, st, m);
    InvNoTemps(cg.moved, 0, c1.next, At(cg, Counting(s, c)), st.top, st.heap, env, w.ext);
    st' := SimNextRound(w, c1, s.ix, b, At(cg, Counting(s, c)), st, env);
    LeadsTrans(w.code, st0, k0, st, 4, st', m, c1.next);
    HasIntLater(w.code, st0, k0 + 4, st', Bounds(s.lo, s.hi, cg).2, m, hi);
    LeadsLess(w.code, st0, k0 + 4, st', m, cg.next);
    LeadsSame(w.code, st0, k0 + 4, st', m);
  }

  lemma HasIntLater(code: Code, st: State, k: nat, st': State, v: Operand, m: Reg, n: int)
    requires Leads(code, st, k, st', m) && HasInt(st.top, v, m, n)
    ensures HasInt(st'.top, v, m, n)
  {
    hide Steps, Keeps;
  }

  lemma RangeBodyGood(w: World, s: Stmt, cg: CG, c: Ctx, st: State, env: Env)
    requires Ok(cg) && cg.scopes != [] && cg.temps == [] && s.ForRange?
    requires st.Running? && At0(|cg.blocks| + 1, st.top)
    requires Inv(cg.moved, [], 0, At(cg, Counting(s, c)), st.top, st.heap, env, w.ext)
    ensures
      var ws := RangeStart(s, cg);
      && Good(ws, At(ws, Inside(cg, Counting(s, c))), st, env, w.ext) && AtLoop(ws, cg, Counting(s, c))
      && !Terminated(ws)
  {
    hide Inv, RangeStart, Flat, Counting;
    RangeShape(w.p, s, cg);
    InvNoTemps(cg.moved, 0, RangeStart(s, cg).next, At(cg, Counting(s, c)), st.top, st.heap, env, w.ext);
    InvInside(cg.moved, RangeStart(s, cg).next, cg, Counting(s, c), st.top, st.heap, env, w.ext);
  }

  lemma RangeTimeout(w: World, s: Stmt, cg: CG, ce: CG, c: Ctx, st: State, env: Env, hi: int) returns (r: Run)
    requires s.ForRange? && st.Running? && Ok(ce)
    ensures Agrees(w, ExecRange(w.p, s.ix, hi, s.body, env, 0), 0, st, r, cg, ce, c, c)
  {
    r := Run(0, st, 0, st.heap);
  }

  lemma BoundsNext(s: Stmt, cg: CG)
    requires Ok(cg) && s.ForRange?
    ensures cg.next <= Bounds(s.lo, s.hi, cg).0.next <= RangeStart(s, cg).next
  {
    hide Bounds;
  }

  lemma ExecForRange(p: Program, s: Stmt, env: Env, n: nat)
    requires s.ForRange?
    ensures Exec(p, s, env, n)
         == ExecRange(p, s.ix, EvalI(s.hi, env), s.body, env.(ints := env.ints[s.ix := EvalI(s.lo, env)]), n)
  {
    hide ExecRange, EvalI;
  }
}
