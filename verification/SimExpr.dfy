/**
 Running the code of an expression: straight-line parts. Integer expressions, releases of
 temporaries, and the finishing instruction of each string expression.
 */
module SimExpr {
  import opened Source
  import opened Machine
  import opened Lowering
  import opened Ownership
  import opened Legality
  import opened Matching

  /** The program, its code and the references held outside the running function. */
  datatype World = World(p: Program, code: Code, ext: multiset<Obj>)

  ghost predicate Compiled(w: World, exact: bool, part: set<nat>) {
    LegalPart(w.p, part, exact) && w.code == Compile(w.p)
  }

  // ---- Integers ----

  ghost predicate HasInt(f: Frame, v: Operand, next: Reg, n: int) {
    Defined(f, v) && IntOf(f, v) == n && (v.Tmp? ==> v.r < next)
  }

  lemma HasIntKept(f: Frame, g: Frame, v: Operand, next: Reg, n: int, next': Reg)
    requires HasInt(f, v, next, n) && SameFrame(f, g, next) && next <= next'
    ensures HasInt(g, v, next', n)
  {
  }

  lemma {:induction false} SimI(w: World, e: IExpr, cg: CG, c: Ctx, st: State, env: Env)
    returns (k: nat, st': State)
    requires Good(cg, c, st, env, w.ext) && LegalI(e, c)
    requires Linked(w.code, st.top.fn, GenI(e, cg).0)
    ensures Arrives(w.code, st, k, st', cg, GenI(e, cg).0, c, env, w.ext)
    ensures HasInt(st'.top, GenI(e, cg).1, GenI(e, cg).0.next, EvalI(e, env))
    decreases e
  {
    hide Prefixes, Owns, Denotes;
    match e
    case IntLit(_) =>
      k, st' := 0, st;
    case IVar(x) =>
      k := 1;
      st' := IntStep(w.code, st.top.fn, cg, LoadInt(cg.next, x), st, c, env, w.ext, EvalI(e, env));
    case Arith(op, l, r) =>
      k, st' := SimArith(w, op, l, r, cg, c, st, env);
  }

  lemma {:induction false} SimArith(w: World, op: ArithOp, l: IExpr, r: IExpr, cg: CG, c: Ctx, st: State, env: Env)
    returns (k: nat, st': State)
    requires Good(cg, c, st, env, w.ext) && LegalI(l, c) && LegalI(r, c)
    requires Linked(w.code, st.top.fn, GenI(Arith(op, l, r), cg).0)
    ensures Arrives(w.code, st, k, st', cg, GenI(Arith(op, l, r), cg).0, c, env, w.ext)
    ensures HasInt(st'.top, GenI(Arith(op, l, r), cg).1, GenI(Arith(op, l, r), cg).0.next,
                   EvalI(Arith(op, l, r), env))
    decreases Arith(op, l, r), 0
  {
    hide Inv, Keeps, LegalI, GenI, Prefixes, Spares, Steps, EvalI;
    var (c1, i) := GenI(l, cg);
    var (c2, j) := GenI(r, c1);
    var ins := IntArith(c2.next, op, i, j);
    ArithParts(w.code, st.top.fn, op, l, r, cg, env);
    var k1, st1 := SimI(w, l, cg, c, st, env);
    var k2, st2 := SimI(w, r, c1, c, st1, env);
    HasIntKept(st1.top, st2.top, i, c1.next, EvalI(l, env), c2.next);
    var st3 := IntStep(w.code, st.top.fn, c2, ins, st2, c, env, w.ext, EvalI(Arith(op, l, r), env));
    hide HasInt, Good, SameFrame, SameSlots;
    ArrivesTrans(w.code, st, k1, st1, k2, st2, cg, c1, c2, c, env, w.ext);
    ArrivesTrans(w.code, st, k1 + k2, st2, 1, st3, cg, c2, Emit(Fresh(c2), ins), c, env, w.ext);
    k, st' := k1 + k2 + 1, st3;
  }

  lemma ArithParts(code: Code, fn: nat, op: ArithOp, l: IExpr, r: IExpr, cg: CG, env: Env)
    requires Ok(cg) && Linked(code, fn, GenI(Arith(op, l, r), cg).0)
    ensures
      var (c1, i) := GenI(l, cg);
      var (c2, j) := GenI(r, c1);
      GenI(Arith(op, l, r), cg) == (Emit(Fresh(c2), IntArith(c2.next, op, i, j)), Tmp(c2.next))
    ensures EvalI(Arith(op, l, r), env) == ArithVal(op, EvalI(l, env), EvalI(r, env))
    ensures
      var c1 := GenI(l, cg).0;
      Linked(code, fn, c1) && Linked(code, fn, GenI(r, c1).0) && cg.next <= c1.next <= GenI(r, c1).0.next
  {
    hide Prefixes, GenI, Emit, EvalI, ArithVal, Linked;
    ArithMeans(op, l, r, env);
    ArithIs(op, l, r, cg);
    var c1 := GenI(l, cg).0;
    var c2 := GenI(r, c1).0;
    LinkedBefore(code, fn, Fresh(c2), GenI(Arith(op, l, r), cg).0);
    LinkedBefore(code, fn, c2, Fresh(c2));
    LinkedBefore(code, fn, c1, c2);
  }

  lemma ArithMeans(op: ArithOp, l: IExpr, r: IExpr, env: Env)
    ensures EvalI(Arith(op, l, r), env) == ArithVal(op, EvalI(l, env), EvalI(r, env))
  {
    hide ArithVal;
  }

  lemma ArithIs(op: ArithOp, l: IExpr, r: IExpr, cg: CG)
    requires Ok(cg)
    ensures
      var (c1, i) := GenI(l, cg);
      var (c2, j) := GenI(r, c1);
      GenI(Arith(op, l, r), cg) == (Emit(Fresh(c2), IntArith(c2.next, op, i, j)), Tmp(c2.next))
  {
    hide Emit, Extends;
  }

  // ---- Releases of temporaries ----

  lemma {:induction false} SimReleases(w: World, rs: seq<Reg>, kept: seq<Reg>, cg: CG, c: Ctx, st: State, env: Env)
    returns (k: nat, st': State)
    requires Ok(cg) && st.Running? && AtEnd(cg, st.top)
    requires Inv(cg.moved, kept + rs, cg.next, c, st.top, st.heap, env, w.ext)
    requires Linked(w.code, st.top.fn, EmitReleases(cg, rs))
    ensures Leads(w.code, st, k, st', cg.next) && SameSlots(st.top, st'.top)
    ensures AtEnd(EmitReleases(cg, rs), st'.top) && EmitReleases(cg, rs).next == cg.next
    ensures Inv(cg.moved, kept, cg.next, c, st'.top, st'.heap, env, w.ext)
    ensures st'.top.sregs == st.top.sregs && st'.top.iregs == st.top.iregs
    decreases rs
  {
    hide Inv, Effect, Linked, Prefixes, Spares, Emit;
    if rs == [] {
      assert kept + rs == kept;
      k, st' := 0, st;
    } else {
      var c1 := Emit(cg, StringRelease(rs[0]));
      ReleasesPart(w.code, st.top.fn, cg, rs);
      assert rs == [rs[0]] + rs[1..];
      var st1 := ReleaseStep(w, kept, rs[0], rs[1..], cg, c, st, env);
      var k1;
      k1, st' := SimReleases(w, rs[1..], kept, c1, c, st1, env);
      LeadsTrans(w.code, st, 1, st1, k1, st', cg.next, cg.next);
      k := 1 + k1;
    }
  }

  lemma ReleasesPart(code: Code, fn: nat, cg: CG, rs: seq<Reg>)
    requires Ok(cg) && rs != [] && Linked(code, fn, EmitReleases(cg, rs))
    ensures Linked(code, fn, Emit(cg, StringRelease(rs[0]))) && Emit(cg, StringRelease(rs[0])).next == cg.next
    ensures Emit(cg, StringRelease(rs[0])).moved == cg.moved
  {
    hide Prefixes;
    LinkedBefore(code, fn, Emit(cg, StringRelease(rs[0])), EmitReleases(cg, rs));
  }

  lemma ReleaseStep(w: World, kept: seq<Reg>, r: Reg, rest: seq<Reg>, cg: CG, c: Ctx, st: State, env: Env)
    returns (st': State)
    requires Ok(cg) && st.Running? && AtEnd(cg, st.top)
    requires Inv(cg.moved, kept + ([r] + rest), cg.next, c, st.top, st.heap, env, w.ext)
    requires Linked(w.code, st.top.fn, Emit(cg, StringRelease(r)))
    ensures Leads(w.code, st, 1, st', cg.next) && SameSlots(st.top, st'.top)
    ensures AtEnd(Emit(cg, StringRelease(r)), st'.top)
    ensures Inv(cg.moved, kept + rest, cg.next, c, st'.top, st'.heap, env, w.ext)
    ensures st'.top.sregs == st.top.sregs && st'.top.iregs == st.top.iregs
  {
    InvDropTemp(cg.moved, kept, r, rest, cg.next, c, st.top, st.heap, env, w.ext);
    hide Inv;
    Fetch(w.code, st.top.fn, cg, StringRelease(r), st);
    var f1 := st.top.(pc := st.top.pc + 1);
    st' := Running(f1, st.rest, Recount(st.heap, st.top.sregs[r], -1));
    InvPc(cg.moved, kept + rest, cg.next, c, st.top, f1, st'.heap, env, w.ext);
    OneStep(w.code, st, st');
  }

  /** The program counter is no part of the invariant. */
  lemma InvPc(moved: set<Var>, temps: seq<Reg>, next: Reg, c: Ctx, f: Frame, g: Frame, h: Heap, env: Env,
              ext: multiset<Obj>)
    requires Inv(moved, temps, next, c, f, h, env, ext)
    requires SameSlots(f, g) && g.sregs == f.sregs
    ensures Inv(moved, temps, next, c, g, h, env, ext)
  {
    hide Owns, Distinct, VarsOk, BorrowsOk;
    SlotsFrame(c, moved, f, g, h, env, ext);
  }

  /** Flushing the temporaries born since `mark`. */
  lemma SimFlush(w: World, mark: nat, cg: CG, c: Ctx, st: State, env: Env)
    returns (k: nat, st': State)
    requires Good(cg, c, st, env, w.ext) && mark <= |cg.temps|
    requires Linked(w.code, st.top.fn, FlushSince(cg, mark))
    ensures Arrives(w.code, st, k, st', cg, FlushSince(cg, mark), c, env, w.ext)
    ensures st'.top.sregs == st.top.sregs && st'.top.iregs == st.top.iregs
  {
    assert cg.temps == cg.temps[..mark] + cg.temps[mark..];
    hide Inv, Prefixes;
    k, st' := SimReleases(w, cg.temps[mark..], cg.temps[..mark], cg, c, st, env);
  }
}
