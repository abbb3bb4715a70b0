/**
 Running the code of the statements that move references: return, declaration, assignment.
 */
module SimStores {
  import opened Source
  import opened Machine
  import opened Lowering
  import opened Ownership
  import opened Legality
  import opened Matching
  import opened SimExpr
  import opened Calls
  import opened SimSteps
  import opened SimScopes

  // ---- Return ----

  /** Retaining the result: the extra reference is accounted to the caller. */
  lemma RetainStep(w: World, a: Reg, cg: CG, c: Ctx, st: State, env: Env) returns (st': State)
    requires Good(cg, c, st, env, w.ext) && Usable(st.top, st.heap, a)
    requires Linked(w.code, st.top.fn, Emit(cg, StringRetain(a)))
    ensures Leads(w.code, st, 1, st', cg.next) && st'.top.sregs == st.top.sregs
    ensures Good(Emit(cg, StringRetain(a)), c, st', env, w.ext + multiset{st.top.sregs[a]})
  {
    hide Prefixes;
    var o := st.top.sregs[a];
    var refs := Held(c.owned, cg.moved, cg.temps, st.top) + w.ext;
    RetainAdds(st.heap, refs, c.exact, o);
    assert refs + multiset{o} == Held(c.owned, cg.moved, cg.temps, st.top) + (w.ext + multiset{o});
    Fetch(w.code, st.top.fn, cg, StringRetain(a), st);
    st' := Running(st.top.(pc := st.top.pc + 1), st.rest, Recount(st.heap, o, 1));
    OneStep(w.code, st, st');
    hide Owns, VarsOk;
    VarsKept(c, cg.moved, st.top, st.heap, st'.heap, env);
    assert Inv(cg.moved, cg.temps, cg.next, c, st.top, st'.heap, env, w.ext + multiset{o});
    InvPc(cg.moved, cg.temps, cg.next, c, st.top, st'.top, st'.heap, env, w.ext + multiset{o});
  }

  /** The final instruction, when nothing but the result is held any more. */
  lemma RetStep(w: World, a: Reg, v: SVal, cg: CG, c: Ctx, st: State, env: Env) returns (o: Obj, h: Heap)
    requires st.Running? && a in st.top.sregs && c.owned == [] && cg.temps == []
    requires Good(cg, c, st, env, w.ext + multiset{st.top.sregs[a]}) && Denotes(st.heap, st.top.sregs[a], v)
    requires Linked(w.code, st.top.fn, Emit(cg, Machine.Ret(a)))
    ensures Returned(w, st, 1, o, h, v, c.exact)
  {
    hide Prefixes, Denotes;
    o, h := st.top.sregs[a], st.heap;
    assert Held([], cg.moved, [], st.top) + (w.ext + multiset{o}) == multiset{o} + w.ext;
    OwnedIsAlive(h, multiset{o} + w.ext, c.exact, o);
    Fetch(w.code, st.top.fn, cg, Machine.Ret(a), st);
    OneStep(w.code, st, PopFrame(st.rest, st.top.dst, o, h));
  }

  lemma ReturnedLater(w: World, st: State, j: nat, s1: State, next: Reg, k: nat, o: Obj, h: Heap, v: SVal, exact: bool)
    requires Leads(w.code, st, j, s1, next) && Returned(w, s1, k, o, h, v, exact)
    ensures Returned(w, st, j + k, o, h, v, exact)
  {
    hide Denotes, Owns;
    StepsAdd(w.code, st, j, k);
  }

  /** What a return emits after its operand. */
  function ReturnTail(c1: CG, a: Reg): (r: CG)
    requires Ok(c1)
    ensures Ok(r)
  {
    var c2 := ReleaseTemps(Emit(c1, StringRetain(a)));
    Emit(ReleaseVars(c2, ReleaseOrder(c2.scopes)), Machine.Ret(a))
  }

  lemma ReturnLinks(code: Code, fn: nat, c1: CG, a: Reg)
    requires Ok(c1) && Linked(code, fn, ReturnTail(c1, a))
    ensures
      var c2 := Emit(c1, StringRetain(a));
      var c3 := FlushSince(c2, 0);
      && c3 == ReleaseTemps(c2) && c3.temps == [] && c3.scopes == c1.scopes && c3.moved == c1.moved
      && Linked(code, fn, c2) && Linked(code, fn, c3) && Linked(code, fn, ReleaseVars(c3, ReleaseOrder(c3.scopes)))
      && Linked(code, fn, Emit(ReleaseVars(c3, ReleaseOrder(c3.scopes)), Machine.Ret(a)))
  {
    hide FlushSince, ReleaseVars, Prefixes;
    var c2 := Emit(c1, StringRetain(a));
    var c3 := FlushSince(c2, 0);
    assert !Terminated(c2);
    LinkedBefore(code, fn, ReleaseVars(c3, ReleaseOrder(c3.scopes)), ReturnTail(c1, a));
    LinkedBefore(code, fn, c3, ReleaseVars(c3, ReleaseOrder(c3.scopes)));
    LinkedBefore(code, fn, c2, c3);
  }

  /** Retain the result, then flush the temporaries. */
  lemma SimRetainFlush(w: World, a: Reg, v: SVal, c1: CG, c: Ctx, st: State, env: Env)
    returns (k: nat, st': State)
    requires Good(c1, c, st, env, w.ext) && Usable(st.top, st.heap, a) && Denotes(st.heap, st.top.sregs[a], v)
    requires Linked(w.code, st.top.fn, Emit(c1, StringRetain(a)))
    requires Linked(w.code, st.top.fn, FlushSince(Emit(c1, StringRetain(a)), 0))
    ensures Leads(w.code, st, k, st', c1.next) && st'.top.sregs == st.top.sregs
    ensures Good(FlushSince(Emit(c1, StringRetain(a)), 0), c, st', env, w.ext + multiset{st.top.sregs[a]})
    ensures Denotes(st'.heap, st.top.sregs[a], v)
  {
    hide Inv, Linked, FlushSince, Prefixes, Steps, Alive, Distinct;
    var w1 := w.(ext := w.ext + multiset{st.top.sregs[a]});
    var c2 := Emit(c1, StringRetain(a));
    var s1 := RetainStep(w, a, c1, c, st, env);
    var k2, s2 := SimFlush(w1, 0, c2, c, s1, env);
    LeadsTrans(w.code, st, 1, s1, k2, s2, c1.next, c1.next);
    k, st' := 1 + k2, s2;
  }

  /** From the evaluated operand to the caller. */
  lemma SimReturnTail(w: World, e: SExpr, a: Reg, v: SVal, c1: CG, c: Ctx, st: State, env: Env)
    returns (k: nat, o: Obj, h: Heap)
    requires Good(c1, At(c1, c), st, env, w.ext) && Result(e, a, v, c1, st)
    requires e.SVar? ==> Readable(At(c1, c), c1.moved, e.x)
    requires Linked(w.code, st.top.fn, ReturnTail(c1, a))
    ensures Returned(w, st, k, o, h, v, c.exact)
  {
    hide Inv, Linked, FlushSince, ReleaseTemps, ReleaseVars, ReleaseOrder, Prefixes, Steps, ReturnTail, Returned, Flat;
    UsableResult(e, a, v, c1, st, At(c1, c), env, w.ext);
    ReturnLinks(w.code, st.top.fn, c1, a);
    var c3 := FlushSince(Emit(c1, StringRetain(a)), 0);
    var k1, s1 := SimRetainFlush(w, a, v, c1, At(c1, c), st, env);
    var k2;
    k2, o, h := SimReturnEnd(w, a, v, c3, c, s1, env);
    ReturnedLater(w, st, k1, s1, c1.next, k2, o, h, v, c.exact);
    k := k1 + k2;
  }

  lemma BeforeRet(code: Code, fn: nat, cg: CG, a: Reg)
    requires Ok(cg) && Linked(code, fn, Emit(cg, Machine.Ret(a)))
    ensures Linked(code, fn, cg)
  {
    LinkedBefore(code, fn, cg, Emit(cg, Machine.Ret(a)));
  }

  /** Releasing every scope and leaving. */
  lemma SimReturnEnd(w: World, a: Reg, v: SVal, c3: CG, c: Ctx, st: State, env: Env)
    returns (k: nat, o: Obj, h: Heap)
    requires st.Running? && a in st.top.sregs && a < c3.next && c3.temps == []
    requires Good(c3, At(c3, c), st, env, w.ext + multiset{st.top.sregs[a]}) && Denotes(st.heap, st.top.sregs[a], v)
    requires Linked(w.code, st.top.fn, Emit(ReleaseVars(c3, ReleaseOrder(c3.scopes)), Machine.Ret(a)))
    ensures Returned(w, st, k, o, h, v, c.exact)
  {
    hide Inv, Linked, ReleaseVars, ReleaseOrder, Prefixes, Steps, Emit, Flat, Returned, Denotes, Keeps, Spares;
    var order := ReleaseOrder(c3.scopes);
    var c4 := ReleaseVars(c3, order);
    BeforeRet(w.code, st.top.fn, c4, a);
    InvReordered(c3, c, st.top, st.heap, env, w.ext + multiset{st.top.sregs[a]});
    var w1 := w.(ext := w.ext + multiset{st.top.sregs[a]});
    var k1, s1 := SimReleaseVars(w1, order, [], c3, c.(owned := order), st, env);
    DenotesKept(st.heap, s1.heap, st.top.sregs[a], v);
    o, h := RetStep(w, a, v, c4, c.(owned := []), s1, env);
    ReturnedLater(w, st, k1, s1, c3.next, 1, o, h, v, c.exact);
    k := k1 + 1;
  }

  // ---- Storing into a string variable ----

  lemma {:induction false} WithoutHeld(ts: seq<Reg>, r: Reg, sregs: map<Reg, Obj>)
    requires r in ts && r in sregs
    ensures TempRefs(ts, sregs) == TempRefs(Without(ts, r), sregs) + multiset{sregs[r]}
    ensures forall t :: t in Without(ts, r) ==> t in ts
    decreases |ts|
  {
    assert ts == [ts[0]] + ts[1..];
    TempRefsAppend([ts[0]], ts[1..], sregs);
    assert [ts[0]][..0] == [];
    if ts[0] != r {
      WithoutHeld(ts[1..], r, sregs);
      TempRefsAppend([ts[0]], Without(ts[1..], r), sregs);
    }
  }

  /** The state after `o` was stored in the slot of `x`, once the references add up. */
  lemma InvStored(moved: set<Var>, moved': set<Var>, temps: seq<Reg>, temps': seq<Reg>, next: Reg, c: Ctx, c': Ctx,
                  x: Var, f: Frame, h: Heap, h': Heap, env: Env, v: SVal, ext: multiset<Obj>, o: Obj)
    requires VarsOk(c, moved, f, h, env) && TempsOk(temps, next, f) && BorrowsOk(c, f, ext) && Keeps(h, h')
    requires moved <= moved' && (forall t :: t in temps' ==> t in temps)
    requires c' == c.(owned := c'.owned) && Distinct(c'.owned)
    requires (forall y :: y in c'.owned ==> y == x || y in c.owned) && x !in c.borrowed && Denotes(h', o, v)
    requires Owns(h', VarRefs(c'.owned, moved', f.svars[x := o]) + TempRefs(temps', f.sregs) + ext, c.exact)
    ensures Inv(moved', temps', next, c', f.(svars := f.svars[x := o]), h', env.(strs := env.strs[x := v]), ext)
  {
    hide Owns, VarRefs, TempRefs, Distinct;
    VarsKept(c, moved, f, h, h', env);
    hide Denotes, Keeps;
  }

  /** How the store accounts for `o`: which variables count as moved and which temporaries are left. */
  function MovedBy(x: Var, e: SExpr, moved: set<Var>): set<Var> {
    if IsMove(x, e) then moved + {e.x} else moved
  }

  /** A store instruction. */
  lemma StoreStep(w: World, x: Var, a: Reg, cg: CG, st: State) returns (st': State)
    requires Ok(cg) && st.Running? && AtEnd(cg, st.top) && a in st.top.sregs
    requires Linked(w.code, st.top.fn, Emit(cg, StoreStr(x, a)))
    ensures Leads(w.code, st, 1, st', cg.next) && AtEnd(Emit(cg, StoreStr(x, a)), st'.top)
    ensures st'.heap == st.heap && st'.top.sregs == st.top.sregs && st'.top.ivars == st.top.ivars
    ensures st'.top.svars == st.top.svars[x := st.top.sregs[a]]
  {
    hide Prefixes;
    Fetch(w.code, st.top.fn, cg, StoreStr(x, a), st);
    st' := Running(st.top.(svars := st.top.svars[x := st.top.sregs[a]], pc := st.top.pc + 1), st.rest, st.heap);
    OneStep(w.code, st, st');
  }

  lemma InvSameRest(moved: set<Var>, temps: seq<Reg>, next: Reg, c: Ctx, f: Frame, g: Frame, h: Heap, env: Env,
                    ext: multiset<Obj>, svars: map<Var, Obj>)
    requires Inv(moved, temps, next, c, f.(svars := svars), h, env, ext)
    requires g.svars == svars && g.ivars == f.ivars && g.sregs == f.sregs
    ensures Inv(moved, temps, next, c, g, h, env, ext)
  {
    InvPc(moved, temps, next, c, f.(svars := svars), g, h, env, ext);
  }

  // ---- Declarations ----

  /** A variable not listed before adds the reference in its slot. */
  lemma VarRefsDeclare(xs: seq<Var>, x: Var, moved: set<Var>, svars: map<Var, Obj>, o: Obj)
    requires x !in xs && x !in moved
    ensures VarRefs(xs + [x], moved, svars[x := o]) == VarRefs(xs, moved, svars) + multiset{o}
  {
    assert (xs + [x])[..|xs + [x]| - 1] == xs;
    VarRefsFrame(xs, moved, svars, svars[x := o]);
  }

  lemma DistinctPush(xs: seq<Var>, x: Var)
    requires Distinct(xs) && x !in xs
    ensures Distinct(xs + [x])
  {
  }

  /** The references of a declaration, before the store: a copy was retained already. */
  lemma DeclRefs(x: Var, e: SExpr, a: Reg, moved: set<Var>, temps: seq<Reg>, c: Ctx, f: Frame)
    requires Distinct(c.owned) && x !in c.owned && x !in moved
    requires Carries(e, a, temps, f) && (e.SVar? ==> temps == [])
    requires IsMove(x, e) ==> e.x in c.owned && e.x !in moved && e.x != x
    ensures
      var o := f.sregs[a];
      VarRefs(c.owned + [x], MovedBy(x, e, moved), f.svars[x := o]) + TempRefs(Without(temps, a), f.sregs)
      == Held(c.owned, moved, temps, f) + (if e.SVar? && !IsMove(x, e) then multiset{o} else multiset{})
    ensures forall t :: t in Without(temps, a) ==> t in temps
  {
    var o := f.sregs[a];
    VarRefsDeclare(c.owned, x, MovedBy(x, e, moved), f.svars, o);
    if e.SVar? {
      if IsMove(x, e) { VarRefsMove(c.owned, moved, f.svars, e.x); }
    } else {
      WithoutHeld(temps, a, f.sregs);
    }
  }

  function DeclTail(x: Var, e: SExpr, c1: CG, a: Reg): (r: CG)
    requires Ok(c1)
    ensures Ok(r)
  {
    var c2 := if e.SVar? && !IsMove(x, e) then Emit(c1, StringRetain(a)) else c1;
    MarkMove(UntrackTemp(Emit(c2, StoreStr(x, a)), a), x, e)
  }

  lemma DeclLinks(code: Code, fn: nat, x: Var, e: SExpr, c1: CG, a: Reg)
    requires Ok(c1) && Linked(code, fn, DeclTail(x, e, c1, a))
    ensures
      var c2 := if e.SVar? && !IsMove(x, e) then Emit(c1, StringRetain(a)) else c1;
      && Linked(code, fn, c2) && Linked(code, fn, Emit(c2, StoreStr(x, a)))
      && DeclTail(x, e, c1, a).moved == MovedBy(x, e, c1.moved)
      && DeclTail(x, e, c1, a).temps == Without(c1.temps, a)
      && DeclTail(x, e, c1, a).blocks == Emit(c2, StoreStr(x, a)).blocks
      && DeclTail(x, e, c1, a).cur == c1.cur && DeclTail(x, e, c1, a).next == c1.next
      && !Terminated(DeclTail(x, e, c1, a))
  {
    var c2 := if e.SVar? && !IsMove(x, e) then Emit(c1, StringRetain(a)) else c1;
    LinkedSame(code, fn, Emit(c2, StoreStr(x, a)), DeclTail(x, e, c1, a));
    LinkedBefore(code, fn, c2, Emit(c2, StoreStr(x, a)));
  }

  /** The copy of a borrowed variable takes a reference of its own. */
  lemma SimDeclRetain(w: World, x: Var, e: SExpr, a: Reg, c1: CG, c: Ctx, st: State, env: Env)
    returns (k: nat, st': State)
    requires Good(c1, c, st, env, w.ext) && Usable(st.top, st.heap, a)
    requires Linked(w.code, st.top.fn, if e.SVar? && !IsMove(x, e) then Emit(c1, StringRetain(a)) else c1)
    ensures
      var c2 := if e.SVar? && !IsMove(x, e) then Emit(c1, StringRetain(a)) else c1;
      var more := if e.SVar? && !IsMove(x, e) then multiset{st.top.sregs[a]} else multiset{};
      && Leads(w.code, st, k, st', c1.next) && AtEnd(c2, st'.top) && SameSlots(st.top, st'.top)
      && st'.top.sregs == st.top.sregs
      && Owns(st'.heap, Held(c.owned, c1.moved, c1.temps, st.top) + w.ext + more, c.exact)
  {
    hide Prefixes, VarsOk, BorrowsOk, Distinct, TempsOk, VarRefs, TempRefs;
    var refs := Held(c.owned, c1.moved, c1.temps, st.top) + w.ext;
    if e.SVar? && !IsMove(x, e) {
      RetainAdds(st.heap, refs, c.exact, st.top.sregs[a]);
      Fetch(w.code, st.top.fn, c1, StringRetain(a), st);
      st' := Running(st.top.(pc := st.top.pc + 1), st.rest, Recount(st.heap, st.top.sregs[a], 1));
      OneStep(w.code, st, st');
      k := 1;
    } else {
      assert refs + multiset{} == refs;
      k, st' := 0, st;
    }
  }

  lemma SimDeclTail(w: World, x: Var, e: SExpr, a: Reg, v: SVal, c1: CG, c: Ctx, st: State, env: Env)
    returns (k: nat, st': State)
    requires Good(c1, c, st, env, w.ext) && Result(e, a, v, c1, st)
    requires x !in c.owned && x !in c1.moved && x !in c.borrowed && (e.SVar? ==> c1.temps == [])
    requires (e.SVar? ==> Readable(c, c1.moved, e.x)) && (forall y :: y in c.borrowed ==> !y.own)
    requires Linked(w.code, st.top.fn, DeclTail(x, e, c1, a))
    ensures Leads(w.code, st, k, st', c1.next)
    ensures Good(DeclTail(x, e, c1, a), c.(owned := c.owned + [x]), st', env.(strs := env.strs[x := v]), w.ext)
  {
    hide Linked, DeclTail, Steps, Owns, Inv, Prefixes, Held, Result, Readable, MovedBy, Without, Distinct;
    UsableResult(e, a, v, c1, st, c, env, w.ext);
    DeclLinks(w.code, st.top.fn, x, e, c1, a);
    var c2 := if e.SVar? && !IsMove(x, e) then Emit(c1, StringRetain(a)) else c1;
    var k1, s1 := SimDeclRetain(w, x, e, a, c1, c, st, env);
    var s2 := StoreStep(w, x, a, c2, s1);
    LeadsTrans(w.code, st, k1, s1, 1, s2, c1.next, c2.next);
    DeclInv(w, x, e, a, v, c1, c, st, s1, s2, env);
    k, st' := k1 + 1, s2;
  }

  lemma DeclInv(w: World, x: Var, e: SExpr, a: Reg, v: SVal, c1: CG, c: Ctx, st: State, s1: State, s2: State, env: Env)
    requires Good(c1, c, st, env, w.ext) && Result(e, a, v, c1, st) && s1.Running? && s2.Running?
    requires x !in c.owned && x !in c1.moved && x !in c.borrowed && (e.SVar? ==> c1.temps == [])
    requires (e.SVar? ==> Readable(c, c1.moved, e.x)) && (forall y :: y in c.borrowed ==> !y.own)
    requires Keeps(st.heap, s1.heap) && s2.heap == s1.heap
    requires s2.top.svars == st.top.svars[x := st.top.sregs[a]]
    requires s2.top.ivars == st.top.ivars && s2.top.sregs == st.top.sregs
    requires Owns(s1.heap, Held(c.owned, c1.moved, c1.temps, st.top) + w.ext
                  + (if e.SVar? && !IsMove(x, e) then multiset{st.top.sregs[a]} else multiset{}), c.exact)
    ensures Inv(MovedBy(x, e, c1.moved), Without(c1.temps, a), c1.next, c.(owned := c.owned + [x]), s2.top, s2.heap,
                env.(strs := env.strs[x := v]), w.ext)
  {
    var o := st.top.sregs[a];
    var c' := c.(owned := c.owned + [x]);
    DeclRefs(x, e, a, c1.moved, c1.temps, c, st.top);
    DistinctPush(c.owned, x);
    var refs := VarRefs(c'.owned, MovedBy(x, e, c1.moved), st.top.svars[x := o]) + TempRefs(Without(c1.temps, a), st.top.sregs);
    var more := if e.SVar? && !IsMove(x, e) then multiset{o} else multiset{};
    assert Held(c.owned, c1.moved, c1.temps, st.top) + w.ext + more == refs + w.ext;
    hide Owns, VarsOk, BorrowsOk, TempsOk, Distinct, VarRefs, TempRefs, Held;
    InvStored(c1.moved, MovedBy(x, e, c1.moved), c1.temps, Without(c1.temps, a), c1.next, c, c', x, st.top, st.heap,
              s1.heap, env, v, w.ext, o);
    InvSameRest(MovedBy(x, e, c1.moved), Without(c1.temps, a), c1.next, c', st.top, s2.top, s2.heap,
                env.(strs := env.strs[x := v]), w.ext, st.top.svars[x := o]);
  }

  // ---- Assignments ----

  /** The references of an assignment: the old value's one is released, the rest is the new state's. */
  lemma AssignRefs(x: Var, e: SExpr, a: Reg, moved: set<Var>, temps: seq<Reg>, c: Ctx, f: Frame)
    requires Distinct(c.owned) && x in c.owned && x !in moved && x in f.svars
    requires Carries(e, a, temps, f) && (e.SVar? ==> temps == [])
    requires e.SVar? ==> IsMove(x, e) && e.x in c.owned && e.x !in moved && e.x != x
    ensures
      var o := f.sregs[a];
      VarRefs(c.owned, MovedBy(x, e, moved), f.svars[x := o]) + TempRefs(Without(temps, a), f.sregs)
        + multiset{f.svars[x]}
      == Held(c.owned, moved, temps, f)
    ensures forall t :: t in Without(temps, a) ==> t in temps
  {
    var o := f.sregs[a];
    var v1, v := VarRefs(c.owned, moved, f.svars[x := o]), VarRefs(c.owned, moved, f.svars);
    VarRefsStore(c.owned, moved, f.svars, x, o);
    if e.SVar? {
      VarRefsMove(c.owned, moved, f.svars[x := o], e.x);
      hide VarRefs, Distinct;
      Cancel(VarRefs(c.owned, MovedBy(x, e, moved), f.svars[x := o]), v, f.svars[x], o);
    } else {
      WithoutHeld(temps, a, f.sregs);
      hide VarRefs, TempRefs, Distinct, Without;
      Exchange(v1, v, f.svars[x], o, TempRefs(Without(temps, a), f.sregs));
    }
  }

  lemma Cancel(v2: multiset<Obj>, v: multiset<Obj>, prior: Obj, o: Obj)
    requires v2 + multiset{o} + multiset{prior} == v + multiset{o}
    ensures v2 + multiset{prior} == v
  {
    assert v2 + multiset{prior} + multiset{o} == v + multiset{o};
    assert v2 + multiset{prior} == v2 + multiset{prior} + multiset{o} - multiset{o};
    assert v == v + multiset{o} - multiset{o};
  }

  lemma Exchange(v1: multiset<Obj>, v: multiset<Obj>, prior: Obj, o: Obj, t: multiset<Obj>)
    requires v1 + multiset{prior} == v + multiset{o}
    ensures v1 + t + multiset{prior} == v + (t + multiset{o})
  {
    assert v1 + t + multiset{prior} == v1 + multiset{prior} + t;
  }

  function AssignTail(x: Var, e: SExpr, c1: CG, a: Reg): (r: CG)
    requires Ok(c1)
    ensures Ok(r)
  {
    var c2 := Emit(Fresh(c1), LoadStr(c1.next, x));
    var c3 := UntrackTemp(Emit(c2, StringRelease(c1.next)), a);
    MarkMove(Emit(c3, StoreStr(x, a)), x, e)
  }

  lemma AssignLinks(code: Code, fn: nat, x: Var, e: SExpr, c1: CG, a: Reg)
    requires Ok(c1) && Linked(code, fn, AssignTail(x, e, c1, a))
    ensures
      var c2 := Emit(Fresh(c1), LoadStr(c1.next, x));
      var c3 := Emit(c2, StringRelease(c1.next));
      var c4 := Emit(c3, StoreStr(x, a));
      var r := AssignTail(x, e, c1, a);
      && Linked(code, fn, c2) && Linked(code, fn, c3) && Linked(code, fn, c4)
      && r.moved == MovedBy(x, e, c1.moved) && r.temps == Without(c1.temps, a)
      && r.blocks == c4.blocks && r.cur == c1.cur && r.next == c1.next + 1 && !Terminated(r)
  {
    var c2 := Emit(Fresh(c1), LoadStr(c1.next, x));
    var c3 := Emit(c2, StringRelease(c1.next));
    LinkedSame(code, fn, Emit(c3, StoreStr(x, a)), AssignTail(x, e, c1, a));
    LinkedBefore(code, fn, c3, Emit(c3, StoreStr(x, a)));
    LinkedBefore(code, fn, c2, c3);
  }

  /** Releasing the old value, with the account of the state after the store. */
  lemma SimOldRelease(w: World, r: Reg, refs: multiset<Obj>, c2: CG, st: State, exact: bool)
    returns (st': State)
    requires Ok(c2) && st.Running? && AtEnd(c2, st.top) && r in st.top.sregs
    requires Owns(st.heap, refs + multiset{st.top.sregs[r]}, exact)
    requires Linked(w.code, st.top.fn, Emit(c2, StringRelease(r)))
    ensures Leads(w.code, st, 1, st', c2.next) && AtEnd(Emit(c2, StringRelease(r)), st'.top)
    ensures SameSlots(st.top, st'.top) && st'.top.sregs == st.top.sregs && Owns(st'.heap, refs, exact)
  {
    hide Prefixes;
    ReleaseDrops(st.heap, refs, exact, st.top.sregs[r]);
    Fetch(w.code, st.top.fn, c2, StringRelease(r), st);
    st' := Running(st.top.(pc := st.top.pc + 1), st.rest, Recount(st.heap, st.top.sregs[r], -1));
    OneStep(w.code, st, st');
  }

  lemma SimAssignTail(w: World, x: Var, e: SExpr, a: Reg, v: SVal, c1: CG, c: Ctx, st: State, env: Env)
    returns (k: nat, st': State)
    requires Good(c1, c, st, env, w.ext) && Result(e, a, v, c1, st)
    requires x in c.owned && x !in c1.moved && x !in c.borrowed && (e.SVar? ==> c1.temps == [])
    requires e.SVar? ==> IsMove(x, e) && e.x != x && Readable(c, c1.moved, e.x)
    requires forall y :: y in c.borrowed ==> !y.own
    requires Linked(w.code, st.top.fn, AssignTail(x, e, c1, a))
    ensures Leads(w.code, st, k, st', c1.next)
    ensures Good(AssignTail(x, e, c1, a), c, st', env.(strs := env.strs[x := v]), w.ext)
  {
    hide AssignTail, Steps, Prefixes, Linked, MovedBy, Without, Denotes, Keeps, SameFrame, Owns, VarRefs, TempRefs,
      Distinct, BorrowsOk, TempsOk;
    AssignLinks(w.code, st.top.fn, x, e, c1, a);
    XIsReadable(c, c1.moved, x);
    assert x in st.top.svars;
    var c2 := Emit(Fresh(c1), LoadStr(c1.next, x));
    hide Inv, VarsOk;
    var s1 := LoadStep(w.code, st.top.fn, c1, x, st, c, env, w.ext);
    CarriesKept(e, a, c1.temps, c2.temps, st.top, s1.top, c1.next);
    LeadsSame(w.code, st, 1, s1, c1.next);
    hide Good;
    var k2, s2 := SimAssignStore(w, x, e, a, v, c1.next, c2, c, s1, env);
    LeadsTrans(w.code, st, 1, s1, k2, s2, c1.next, c2.next);
    k, st' := 1 + k2, s2;
    assert MovedBy(x, e, c2.moved) == MovedBy(x, e, c1.moved) && c2.temps == c1.temps && c2.next == c1.next + 1;
    AssignGood(w, x, e, c1, a, c, st', env.(strs := env.strs[x := v]));
  }

  lemma AssignGood(w: World, x: Var, e: SExpr, c1: CG, a: Reg, c: Ctx, st: State, env: Env)
    requires Ok(c1) && st.Running?
    requires var c2 := Emit(Fresh(c1), LoadStr(c1.next, x));
      && AtEnd(Emit(Emit(c2, StringRelease(c1.next)), StoreStr(x, a)), st.top)
      && Inv(MovedBy(x, e, c1.moved), Without(c1.temps, a), c1.next + 1, c, st.top, st.heap, env, w.ext)
    ensures Good(AssignTail(x, e, c1, a), c, st, env, w.ext)
  {
    hide Inv;
  }

  lemma SimAssignStore(w: World, x: Var, e: SExpr, a: Reg, v: SVal, r: Reg, c2: CG, c: Ctx, st: State, env: Env)
    returns (k: nat, st': State)
    requires Good(c2, c, st, env, w.ext) && Carries(e, a, c2.temps, st.top) && Denotes(st.heap, st.top.sregs[a], v)
    requires x in c.owned && x !in c2.moved && x !in c.borrowed && (e.SVar? ==> c2.temps == [])
    requires e.SVar? ==> IsMove(x, e) && e.x != x && Readable(c, c2.moved, e.x)
    requires forall y :: y in c.borrowed ==> !y.own
    requires x in st.top.svars && r in st.top.sregs && st.top.sregs[r] == st.top.svars[x]
    requires Linked(w.code, st.top.fn, Emit(c2, StringRelease(r)))
    requires Linked(w.code, st.top.fn, Emit(Emit(c2, StringRelease(r)), StoreStr(x, a)))
    ensures Leads(w.code, st, k, st', c2.next)
    ensures AtEnd(Emit(Emit(c2, StringRelease(r)), StoreStr(x, a)), st'.top)
    ensures Inv(MovedBy(x, e, c2.moved), Without(c2.temps, a), c2.next, c, st'.top, st'.heap,
                env.(strs := env.strs[x := v]), w.ext)
  {
    var o := st.top.sregs[a];
    var moved', temps' := MovedBy(x, e, c2.moved), Without(c2.temps, a);
    AssignRefs(x, e, a, c2.moved, c2.temps, c, st.top);
    var refs := VarRefs(c.owned, moved', st.top.svars[x := o]) + TempRefs(temps', st.top.sregs) + w.ext;
    assert Held(c.owned, c2.moved, c2.temps, st.top) + w.ext == refs + multiset{st.top.svars[x]};
    hide Owns, VarsOk, BorrowsOk, TempsOk, Distinct, VarRefs, TempRefs, Held, Linked, Steps, Prefixes;
    var s1 := SimOldRelease(w, r, refs, c2, st, c.exact);
    var s2 := StoreStep(w, x, a, Emit(c2, StringRelease(r)), s1);
    LeadsTrans(w.code, st, 1, s1, 1, s2, c2.next, c2.next);
    DenotesKept(st.heap, s1.heap, o, v);
    InvStored(c2.moved, moved', c2.temps, temps', c2.next, c, c, x, st.top, st.heap, s1.heap, env, v, w.ext, o);
    InvSameRest(moved', temps', c2.next, c, st.top, s2.top, s2.heap, env.(strs := env.strs[x := v]), w.ext,
                st.top.svars[x := o]);
    k, st' := 2, s2;
  }

  lemma DenotesKept(h: Heap, h': Heap, o: Obj, v: SVal)
    requires Denotes(h, o, v) && Keeps(h, h')
    ensures Denotes(h', o, v)
  {
  }

  // ---- Integer stores ----

  lemma SimStoreInt(w: World, x: Var, e: IExpr, cg: CG, c: Ctx, st: State, env: Env)
    returns (k: nat, st': State)
    requires Good(cg, c, st, env, w.ext) && LegalI(e, c)
    requires Linked(w.code, st.top.fn, GenStoreInt(x, e, cg))
    ensures Leads(w.code, st, k, st', cg.next)
    ensures Good(GenStoreInt(x, e, cg), c.(ints := c.ints + {x}), st',
                 env.(ints := env.ints[x := EvalI(e, env)]), w.ext)
    ensures !Terminated(GenStoreInt(x, e, cg))
  {
    hide Inv, LegalI, EvalI, GenI, Keeps, Steps, Linked, SameFrame, Prefixes;
    var (c1, i) := GenI(e, cg);
    LinkedBefore(w.code, st.top.fn, c1, Emit(c1, StoreInt(x, i)));
    var k1, s1 := SimI(w, e, cg, c, st, env);
    LeadsSame(w.code, st, k1, s1, cg.next);
    hide Good;
    st' := IntStoreStep(w, x, i, c1, c, s1, env, EvalI(e, env));
    LeadsTrans(w.code, st, k1, s1, 1, st', cg.next, c1.next);
    k := k1 + 1;
  }

  lemma IntStoreStep(w: World, x: Var, i: Operand, cg: CG, c: Ctx, st: State, env: Env, n: int)
    returns (st': State)
    requires Good(cg, c, st, env, w.ext) && Defined(st.top, i) && IntOf(st.top, i) == n
    requires Linked(w.code, st.top.fn, Emit(cg, StoreInt(x, i)))
    ensures Leads(w.code, st, 1, st', cg.next) && st'.heap == st.heap
    ensures Good(Emit(cg, StoreInt(x, i)), c.(ints := c.ints + {x}), st', env.(ints := env.ints[x := n]), w.ext)
  {
    hide Prefixes, Owns, Denotes, VarRefs, TempRefs, Distinct;
    Fetch(w.code, st.top.fn, cg, StoreInt(x, i), st);
    st' := Running(st.top.(ivars := st.top.ivars[x := n], pc := st.top.pc + 1), st.rest, st.heap);
    OneStep(w.code, st, st');
    assert Held(c.owned, cg.moved, cg.temps, st'.top) == Held(c.owned, cg.moved, cg.temps, st.top);
  }
}
