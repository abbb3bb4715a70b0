/**
 Match expressions that yield a string: each arm leaves its value, owned, in the result slot, and
 releases what it created itself in its own block.
 */
module MatchArms {
  import opened Source
  import opened Machine
  import opened Lowering
  import opened Ownership
  import opened Legality
  import opened Matching
  import opened SimExpr
  import opened Calls
  import opened SimSteps
  import opened SimScopes
  import opened SimStores
  import opened Runs
  import opened Simulation

  /** The value in the result slot: borrowed ones are retained, temporaries handed over. */
  function TakeOver(e: SExpr, c1: CG, a: Reg): (r: CG)
    requires Ok(c1)
    ensures Ok(r)
  {
    if e.SVar? then Emit(c1, StringRetain(a)) else UntrackTemp(c1, a)
  }

  /** An arm with value `e`: result slot `y`, then the arm's own temporaries, then the merge block. */
  function GenArm(p: Program, e: SExpr, y: Var, merge: nat, cg: CG): (r: CG)
    requires Ok(cg)
    ensures Ok(r)
  {
    var (c1, a) := GenS(p, e, cg);
    var c3 := Emit(TakeOver(e, c1, a), StoreStr(y, a));
    Emit(if |cg.temps| <= |c3.temps| then FlushSince(c3, |cg.temps|) else c3, Br(merge))
  }

  /** After the merge the value is a temporary of the enclosing statement. */
  function GenMatchEnd(y: Var, cg: CG): (r: (CG, Reg))
    requires Ok(cg)
    ensures Ok(r.0)
  {
    EmitTemp(cg, LoadStr(cg.next, y))
  }

  lemma {:induction false} WithoutPrefix(ts: seq<Reg>, r: Reg, front: seq<Reg>)
    requires front <= ts && r !in front
    ensures front <= Without(ts, r)
    decreases |ts|
  {
    if front != [] {
      WithoutPrefix(ts[1..], r, front[1..]);
      assert ts[0] == front[0];
    }
  }

  lemma FreshResult(p: Program, e: SExpr, cg: CG)
    requires Ok(cg) && !e.SVar?
    ensures GenS(p, e, cg).1 >= cg.next && GenS(p, e, cg).1 in GenS(p, e, cg).0.temps
  {
    hide Prefixes, Spares;
    match e
    case Lit(_) =>
    case Concat(l, r) =>
      var c1 := GenS(p, l, cg).0;
      var c2 := GenS(p, r, c1).0;
    case Call(_, args) =>
      var c1 := GenArgs(p, args, cg).0;
  }

  /** The stages of an arm, and that what was pending before it is pending after it, and nothing else. */
  lemma ArmStages(code: Code, fn: nat, p: Program, e: SExpr, y: Var, merge: nat, cg: CG)
    requires Ok(cg) && Linked(code, fn, GenArm(p, e, y, merge, cg)) && forall t :: t in cg.temps ==> t < cg.next
    ensures
      var (c1, a) := GenS(p, e, cg);
      var c2 := TakeOver(e, c1, a);
      var c3 := Emit(c2, StoreStr(y, a));
      && |cg.temps| <= |c3.temps| && c2.moved == c1.moved && cg.next <= c1.next == c2.next == c3.next
      && Linked(code, fn, c1) && Linked(code, fn, c2) && Linked(code, fn, c3)
      && var c4 := FlushSince(c3, |cg.temps|);
         && c4.temps == cg.temps && c4.moved == c1.moved && c4.next == c3.next && Linked(code, fn, c4)
         && GenArm(p, e, y, merge, cg) == Emit(c4, Br(merge))
  {
    hide GenS, Prefixes, FlushSince, Linked, TakeOver;
    var (c1, a) := GenS(p, e, cg);
    var c2 := TakeOver(e, c1, a);
    if !e.SVar? { FreshResult(p, e, cg); }
    TakenOver(e, c1, a, cg.temps);
    var c3 := Emit(c2, StoreStr(y, a));
    FlushNext(c3, |cg.temps|);
    var c4 := FlushSince(c3, |cg.temps|);
    LinkedBefore(code, fn, c4, Emit(c4, Br(merge)));
    LinkedBefore(code, fn, c3, c4);
    LinkedBefore(code, fn, c2, c3);
    LinkedBefore(code, fn, c1, c2);
  }

  lemma TakenOver(e: SExpr, c1: CG, a: Reg, front: seq<Reg>)
    requires Ok(c1) && front <= c1.temps && (!e.SVar? ==> a !in front)
    ensures var c2 := TakeOver(e, c1, a);
      front <= c2.temps && Prefixes(c1.blocks, c2.blocks) && c2.next == c1.next && c2.moved == c1.moved
  {
    if !e.SVar? { WithoutPrefix(c1.temps, a, front); }
  }

  /** The value of an arm now belongs to the result slot: it is accounted like a reference held outside. */
  lemma SimTakeOver(w: World, e: SExpr, a: Reg, v: SVal, c1: CG, c: Ctx, st: State, env: Env) returns (k: nat, st': State)
    requires Good(c1, c, st, env, w.ext) && Result(e, a, v, c1, st) && (e.SVar? ==> Readable(c, c1.moved, e.x))
    requires Linked(w.code, st.top.fn, TakeOver(e, c1, a))
    ensures Leads(w.code, st, k, st', c1.next) && st'.top.sregs == st.top.sregs && Denotes(st'.heap, st.top.sregs[a], v)
    ensures Good(TakeOver(e, c1, a), c, st', env, w.ext + multiset{st.top.sregs[a]})
  {
    hide Inv, Linked, Denotes, Keeps, Alive;
    if e.SVar? {
      UsableResult(e, a, v, c1, st, c, env, w.ext);
      st' := RetainStep(w, a, c1, c, st, env);
      k := 1;
      DenotesKept(st.heap, st'.heap, st.top.sregs[a], v);
    } else {
      k, st' := 0, st;
      LeadsNowhere(w.code, st, c1.next);
      HandedOver(a, c1, c, st, env, w.ext);
    }
  }

  lemma HandedOver(a: Reg, c1: CG, c: Ctx, st: State, env: Env, ext: multiset<Obj>)
    requires Good(c1, c, st, env, ext) && a in c1.temps && a in st.top.sregs
    ensures Good(UntrackTemp(c1, a), c, st, env, ext + multiset{st.top.sregs[a]})
  {
    var o := st.top.sregs[a];
    WithoutHeld(c1.temps, a, st.top.sregs);
    hide Owns, VarsOk, Distinct, VarRefs, TempRefs, Without, AtEnd;
    assert Held(c.owned, c1.moved, c1.temps, st.top) + ext
        == Held(c.owned, c1.moved, Without(c1.temps, a), st.top) + (ext + multiset{o});
  }

  /** The result slot is no variable of the program. */
  predicate Unnamed(y: Var, c: Ctx) {
    y !in c.owned && y !in c.borrowed && y !in c.ints
  }

  /** Storing into the result slot changes nothing the invariant speaks about. */
  lemma SimStoreResult(w: World, y: Var, a: Reg, c2: CG, c: Ctx, st: State, env: Env) returns (st': State)
    requires Good(c2, c, st, env, w.ext) && a in st.top.sregs && Unnamed(y, c)
    requires Linked(w.code, st.top.fn, Emit(c2, StoreStr(y, a)))
    ensures Leads(w.code, st, 1, st', c2.next) && Good(Emit(c2, StoreStr(y, a)), c, st', env, w.ext)
    ensures st'.heap == st.heap && st'.top.sregs == st.top.sregs
    ensures y in st'.top.svars && st'.top.svars[y] == st.top.sregs[a]
  {
    hide Linked, Prefixes, Owns, Distinct, VarRefs, TempRefs, Denotes;
    st' := StoreStep(w, y, a, c2, st);
    VarRefsFrame(c.owned, c2.moved, st.top.svars, st'.top.svars);
  }

  /**
   An arm, run: it never gets stuck and arrives at the merge block with exactly the temporaries
   of before pending, all alive, and with one reference to its value owned by the result slot.
   */
  lemma ArmConfined(w: World, e: SExpr, y: Var, merge: nat, cg: CG, c: Ctx, st: State, env: Env, n: nat)
    returns (k: nat, st': State)
    requires Good(cg, c, st, env, w.ext) && LegalS(w.p, e, cg.moved, c) && Ready(w, c) && Unnamed(y, c)
    requires Linked(w.code, st.top.fn, GenArm(w.p, e, y, merge, cg)) && EvalS(w.p, e, env, n).Val?
    ensures GenArm(w.p, e, y, merge, cg).temps == cg.temps
    ensures Leads(w.code, st, k, st', cg.next) && At0(merge, st'.top)
    ensures y in st'.top.svars && Denotes(st'.heap, st'.top.svars[y], EvalS(w.p, e, env, n).v)
    ensures Inv(GenS(w.p, e, cg).0.moved, cg.temps, GenS(w.p, e, cg).0.next, c, st'.top, st'.heap, env,
                w.ext + multiset{st'.top.svars[y]})
  {
    hide Inv, Linked, Steps, LegalS, EvalS, GenS, Ready, Denotes, Keeps, TakeOver, FlushSince, SameFrame;
    TempsBelow(cg, c, st, env, w.ext);
    ArmStages(w.code, st.top.fn, w.p, e, y, merge, cg);
    var (c1, a) := GenS(w.p, e, cg);
    var c2 := TakeOver(e, c1, a);
    var c3 := Emit(c2, StoreStr(y, a));
    var v := EvalS(w.p, e, env, n).v;
    var k1, s1 := SimS(w, e, cg, c, st, env, n);
    if e.SVar? { ReadVar(w.p, e, cg.moved, c); GenSMoves(w.p, e, cg); }
    LeadsSame(w.code, st, k1, s1, cg.next);
    var o := s1.top.sregs[a];
    var w1 := w.(ext := w.ext + multiset{o});
    var k2, s2 := SimTakeOver(w, e, a, v, c1, c, s1, env);
    LeadsSame(w.code, s1, k2, s2, c1.next);
    var s3 := SimStoreResult(w1, y, a, c2, c, s2, env);
    LeadsSame(w.code, s2, 1, s3, c2.next);
    LeadsTrans(w.code, s1, k2, s2, 1, s3, c1.next, c2.next);
    LeadsTrans(w.code, st, k1, s1, k2 + 1, s3, cg.next, c1.next);
    var k4, s4 := ArmEnds(w1, y, o, v, merge, |cg.temps|, c3, c, s3, env);
    LeadsTrans(w.code, st, k1 + (k2 + 1), s3, k4, s4, cg.next, c3.next);
    k, st' := k1 + (k2 + 1) + k4, s4;
  }

  lemma TempsBelow(cg: CG, c: Ctx, st: State, env: Env, ext: multiset<Obj>)
    requires Good(cg, c, st, env, ext)
    ensures forall t :: t in cg.temps ==> t < cg.next
  {
    hide Owns, VarsOk, BorrowsOk, Distinct;
  }

  /** The flush of the arm's temporaries, and the branch to the merge block. */
  lemma ArmEnds(w: World, y: Var, o: Obj, v: SVal, merge: nat, mark: nat, c3: CG, c: Ctx, st: State, env: Env)
    returns (k: nat, st': State)
    requires Good(c3, c, st, env, w.ext) && mark <= |c3.temps| && Denotes(st.heap, o, v)
    requires y in st.top.svars && st.top.svars[y] == o
    requires Linked(w.code, st.top.fn, FlushSince(c3, mark)) && Linked(w.code, st.top.fn, Emit(FlushSince(c3, mark), Br(merge)))
    requires FlushSince(c3, mark).next == c3.next
    ensures Leads(w.code, st, k, st', c3.next) && At0(merge, st'.top)
    ensures y in st'.top.svars && st'.top.svars[y] == o && Denotes(st'.heap, o, v)
    ensures Inv(c3.moved, c3.temps[..mark], c3.next, c, st'.top, st'.heap, env, w.ext)
  {
    hide Inv, Linked, Steps, Denotes, Keeps, FlushSince, SameFrame;
    var c4 := FlushSince(c3, mark);
    var k1, s1 := SimFlush(w, mark, c3, c, st, env);
    LeadsSame(w.code, st, k1, s1, c3.next);
    DenotesKept(st.heap, s1.heap, o, v);
    st' := BrStep(w, c4, merge, c, s1, env);
    LeadsSame(w.code, s1, 1, st', c4.next);
    DenotesKept(s1.heap, st'.heap, o, v);
    LeadsTrans(w.code, st, k1, s1, 1, st', c3.next, c4.next);
    k := k1 + 1;
  }

  /** At the merge: the value is loaded from the slot and becomes a pending temporary like any other. */
  lemma MatchEnds(w: World, y: Var, cg: CG, c: Ctx, st: State, env: Env) returns (st': State)
    requires Ok(cg) && st.Running? && AtEnd(cg, st.top) && y in st.top.svars
    requires Inv(cg.moved, cg.temps, cg.next, c, st.top, st.heap, env, w.ext + multiset{st.top.svars[y]})
    requires forall x :: x in c.borrowed ==> x in st.top.svars && (st.top.svars[x] == 0 || st.top.svars[x] in w.ext)
    requires Linked(w.code, st.top.fn, GenMatchEnd(y, cg).0)
    ensures Arrives(w.code, st, 1, st', cg, GenMatchEnd(y, cg).0, c, env, w.ext)
    ensures GenMatchEnd(y, cg).1 in st'.top.sregs && st'.top.sregs[GenMatchEnd(y, cg).1] == st.top.svars[y]
  {
    hide Prefixes, Owns, VarRefs, TempRefs, Distinct, VarsOk;
    var o := st.top.svars[y];
    Fetch(w.code, st.top.fn, Fresh(cg), LoadStr(cg.next, y), st);
    st' := Running(SetS(st.top, cg.next, o), st.rest, st.heap);
    OneStep(w.code, st, st');
    assert Held(c.owned, cg.moved, cg.temps, st.top) + (w.ext + multiset{o})
        == Held(c.owned, cg.moved, cg.temps, st.top) + w.ext + multiset{o};
    SlotsFrame(c, cg.moved, st.top, st'.top, st.heap, env, w.ext);
    PushTemp(cg.temps, cg.next, st.top, o);
    assert Held(c.owned, cg.moved, cg.temps + [cg.next], st'.top) + w.ext
        == Held(c.owned, cg.moved, cg.temps, st.top) + w.ext + multiset{o};
  }
}
