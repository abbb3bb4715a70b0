/**
 Running the code of scopes and of statements that store strings: releases at the end of a
 block and before a return, declarations, assignments.
 */
module SimScopes {
  import opened Source
  import opened Machine
  import opened Lowering
  import opened Ownership
  import opened Legality
  import opened Matching
  import opened SimExpr
  import opened Calls
  import opened SimSteps

  // ---- Scope stacks ----

  lemma FlatPush(scopes: seq<seq<Var>>)
    ensures Flat(scopes + [[]]) == Flat(scopes)
  {
    assert (scopes + [[]])[..|scopes + [[]]| - 1] == scopes;
  }

  lemma FlatDeclare(cg: CG, x: Var)
    requires Ok(cg) && cg.scopes != []
    ensures Flat(Declare(cg, x).scopes) == Flat(cg.scopes) + [x]
  {
    var n := |cg.scopes| - 1;
    assert Declare(cg, x).scopes[..n] == cg.scopes[..n];
    assert Flat(cg.scopes[..n]) + (cg.scopes[n] + [x]) == Flat(cg.scopes[..n]) + cg.scopes[n] + [x];
  }

  /** Scopes only grow at the innermost end. */
  lemma FlatFollows(a: CG, b: CG)
    requires Follows(a, b)
    ensures Flat(a.scopes) <= Flat(b.scopes)
  {
  }

  lemma {:induction false} ReleaseOrderHolds(scopes: seq<seq<Var>>, moved: set<Var>, svars: map<Var, Obj>)
    ensures VarRefs(ReleaseOrder(scopes), moved, svars) == VarRefs(Flat(scopes), moved, svars)
    ensures multiset(ReleaseOrder(scopes)) == multiset(Flat(scopes))
    decreases |scopes|
  {
    if scopes != [] {
      var outer, last := scopes[..|scopes| - 1], scopes[|scopes| - 1];
      ReleaseOrderHolds(outer, moved, svars);
      VarRefsAppend(last, ReleaseOrder(outer), moved, svars);
      VarRefsAppend(Flat(outer), last, moved, svars);
    }
  }

  lemma DistinctByCount<T>(xs: seq<T>, ys: seq<T>)
    requires Distinct(xs) && multiset(xs) == multiset(ys)
    ensures Distinct(ys) && forall x :: x in xs <==> x in ys
  {
    forall x ensures x in xs <==> x in ys {
      assert x in multiset(xs) <==> x in multiset(ys);
    }
    forall i, j | 0 <= i < j < |ys| ensures ys[i] != ys[j] {
      if ys[i] == ys[j] {
        var x := ys[i];
        assert ys == ys[..j] + ys[j..];
        assert x in ys[..j] && x in ys[j..];
        assert multiset(ys)[x] >= 2;
        CountOnce(xs, x);
      }
    }
  }

  lemma {:induction false} CountOnce<T>(xs: seq<T>, x: T)
    requires Distinct(xs)
    ensures multiset(xs)[x] <= 1
    decreases |xs|
  {
    if xs != [] {
      CountOnce(xs[1..], x);
      assert xs == [xs[0]] + xs[1..];
      assert xs[0] !in xs[1..];
    }
  }

  /** The order in which tracked variables are listed does not matter. */
  lemma InvReordered(cg: CG, c: Ctx, f: Frame, h: Heap, env: Env, ext: multiset<Obj>)
    requires Inv(cg.moved, cg.temps, cg.next, At(cg, c), f, h, env, ext)
    ensures Inv(cg.moved, cg.temps, cg.next, c.(owned := ReleaseOrder(cg.scopes)), f, h, env, ext)
  {
    ReleaseOrderHolds(cg.scopes, cg.moved, f.svars);
    DistinctByCount(Flat(cg.scopes), ReleaseOrder(cg.scopes));
    hide VarRefs, TempRefs, Flat, ReleaseOrder, Distinct, Owns, Denotes;
  }

  // ---- Releasing variables ----

  lemma SplitVars(base: seq<Var>, x: Var, rest: seq<Var>, moved: set<Var>, svars: map<Var, Obj>)
    ensures VarRefs(base + ([x] + rest), moved, svars)
         == VarRefs(base + rest, moved, svars)
            + (if x in moved || x !in svars then multiset{} else multiset{svars[x]})
  {
    VarRefsAppend(base, [x] + rest, moved, svars);
    VarRefsAppend([x], rest, moved, svars);
    VarRefsAppend(base, rest, moved, svars);
    assert [x][..0] == [];
  }

  lemma DistinctDrop(base: seq<Var>, x: Var, rest: seq<Var>)
    requires Distinct(base + ([x] + rest))
    ensures Distinct(base + rest)
  {
    var xs := base + ([x] + rest);
    var ys := base + rest;
    forall i, j | 0 <= i < j < |ys| ensures ys[i] != ys[j] {
      var i', j' := if i < |base| then i else i + 1, if j < |base| then j else j + 1;
      assert xs[i'] == ys[i] && xs[j'] == ys[j];
    }
  }

  lemma VarsFewer(c: Ctx, c': Ctx, moved: set<Var>, f: Frame, h: Heap, env: Env, ext: multiset<Obj>)
    requires forall x :: x in c'.owned ==> x in c.owned
    requires c'.borrowed == c.borrowed && c'.ints <= c.ints
    ensures VarsOk(c, moved, f, h, env) ==> VarsOk(c', moved, f, h, env)
    ensures BorrowsOk(c, f, ext) ==> BorrowsOk(c', f, ext)
  {
  }

  /** A moved variable goes out of scope: nothing happens. */
  lemma InvDropMoved(moved: set<Var>, temps: seq<Reg>, next: Reg, c: Ctx, base: seq<Var>, x: Var, rest: seq<Var>,
                     f: Frame, h: Heap, env: Env, ext: multiset<Obj>)
    requires c.owned == base + ([x] + rest) && Inv(moved, temps, next, c, f, h, env, ext) && x in moved
    ensures Inv(moved, temps, next, c.(owned := base + rest), f, h, env, ext)
  {
    hide VarsOk, BorrowsOk, Owns, VarRefs, TempRefs;
    SplitVars(base, x, rest, moved, f.svars);
    DistinctDrop(base, x, rest);
    VarsFewer(c, c.(owned := base + rest), moved, f, h, env, ext);
    assert Held(c.owned, moved, temps, f) == Held(base + rest, moved, temps, f);
  }

  /** Releasing an unmoved variable that goes out of scope. */
  lemma InvDropVar(moved: set<Var>, temps: seq<Reg>, next: Reg, c: Ctx, base: seq<Var>, x: Var, rest: seq<Var>,
                   f: Frame, h: Heap, env: Env, ext: multiset<Obj>)
    requires c.owned == base + ([x] + rest) && Inv(moved, temps, next, c, f, h, env, ext) && x !in moved
    ensures x in f.svars && Alive(h, f.svars[x]) && Keeps(h, Recount(h, f.svars[x], -1))
    ensures Inv(moved, temps, next, c.(owned := base + rest), f, Recount(h, f.svars[x], -1), env, ext)
  {
    assert c.owned[|base|] == x && x in c.owned;
    XIsReadable(c, moved, x);
    assert x in f.svars;
    var o := f.svars[x];
    hide VarsOk, BorrowsOk, Owns, VarRefs, TempRefs, Readable, Denotes;
    SplitVars(base, x, rest, moved, f.svars);
    DistinctDrop(base, x, rest);
    var c' := c.(owned := base + rest);
    VarsFewer(c, c', moved, f, h, env, ext);
    var refs := Held(c'.owned, moved, temps, f) + ext;
    assert Held(c.owned, moved, temps, f) + ext == refs + multiset{o};
    ReleaseDrops(h, refs, c.exact, o);
    VarsKept(c', moved, f, h, Recount(h, o, -1), env);
  }

  lemma XIsReadable(c: Ctx, moved: set<Var>, x: Var)
    requires x in c.owned && x !in moved
    ensures Readable(c, moved, x)
  {
  }

  function ReleaseOne(cg: CG, x: Var): (r: CG)
    requires Ok(cg)
    ensures Extends(cg, r) && r.temps == cg.temps && r.moved == cg.moved && r.next == cg.next + 1
  {
    Emit(Emit(Fresh(cg), LoadStr(cg.next, x)), StringRelease(cg.next))
  }

  lemma ReleaseVarsUnfold(cg: CG, xs: seq<Var>)
    requires Ok(cg) && xs != [] && xs[0] !in cg.moved
    ensures ReleaseVars(cg, xs) == ReleaseVars(ReleaseOne(cg, xs[0]), xs[1..])
    ensures Prefixes(ReleaseOne(cg, xs[0]).blocks, ReleaseVars(cg, xs).blocks)
  {
  }

  /** Loading and releasing one variable. */
  lemma SimReleaseVar(w: World, x: Var, base: seq<Var>, rest: seq<Var>, cg: CG, c: Ctx, st: State, env: Env)
    returns (st': State)
    requires Good(cg, c, st, env, w.ext) && c.owned == base + ([x] + rest) && x !in cg.moved
    requires Linked(w.code, st.top.fn, ReleaseOne(cg, x))
    ensures Leads(w.code, st, 2, st', cg.next)
    ensures Good(ReleaseOne(cg, x), c.(owned := base + rest), st',
                 env, w.ext)
  {
    hide Inv, Prefixes, Keeps, Distinct, Steps;
    var c1 := Emit(Fresh(cg), LoadStr(cg.next, x));
    LinkedBefore(w.code, st.top.fn, c1, ReleaseOne(cg, x));
    InvDropVar(cg.moved, cg.temps, cg.next, c, base, x, rest, st.top, st.heap, env, w.ext);
    var s1 := LoadStep(w.code, st.top.fn, cg, x, st, c, env, w.ext);
    InvDropVar(c1.moved, c1.temps, c1.next, c, base, x, rest, s1.top, s1.heap, env, w.ext);
    Fetch(w.code, st.top.fn, c1, StringRelease(cg.next), s1);
    var f2 := s1.top.(pc := s1.top.pc + 1);
    st' := Running(f2, s1.rest, Recount(s1.heap, s1.top.svars[x], -1));
    InvPc(c1.moved, c1.temps, c1.next, c.(owned := base + rest), s1.top, f2, st'.heap, env, w.ext);
    OneStep(w.code, s1, st');
    LeadsTrans(w.code, st, 1, s1, 1, st', cg.next, c1.next);
  }

  lemma {:induction false} SimReleaseVars(w: World, xs: seq<Var>, base: seq<Var>, cg: CG, c: Ctx, st: State, env: Env)
    returns (k: nat, st': State)
    requires Good(cg, c, st, env, w.ext) && c.owned == base + xs
    requires Linked(w.code, st.top.fn, ReleaseVars(cg, xs))
    ensures Leads(w.code, st, k, st', cg.next)
    ensures Good(ReleaseVars(cg, xs), c.(owned := base), st', env, w.ext)
    decreases |xs|
  {
    hide Inv, Keeps, Prefixes, Grows, Emit, Fresh, Linked, ReleaseOne, Steps, SameFrame, Distinct;
    if xs == [] {
      assert base + xs == base;
      k, st' := 0, st;
      LeadsNowhere(w.code, st, cg.next);
    } else {
      var x, rest := xs[0], xs[1..];
      assert c.owned == base + ([x] + rest) by { assert xs == [x] + rest; }
      var c' := c.(owned := base + rest);
      if x in cg.moved {
        InvDropMoved(cg.moved, cg.temps, cg.next, c, base, x, rest, st.top, st.heap, env, w.ext);
        k, st' := SimReleaseVars(w, rest, base, cg, c', st, env);
      } else {
        var c2 := ReleaseOne(cg, x);
        ReleaseVarsUnfold(cg, xs);
        LinkedBefore(w.code, st.top.fn, c2, ReleaseVars(cg, xs));
        hide ReleaseVars;
        var s1 := SimReleaseVar(w, x, base, rest, cg, c, st, env);
        var k1;
        LeadsSame(w.code, st, 2, s1, cg.next);
        hide Leads;
        k1, st' := SimReleaseVars(w, rest, base, c2, c', s1, env);
        LeadsTrans(w.code, st, 2, s1, k1, st', cg.next, c2.next);
        k := 2 + k1;
      }
    }
  }

  lemma LeadsNowhere(code: Code, st: State, next: Reg)
    requires st.Running?
    ensures Leads(code, st, 0, st, next)
  {
  }

  lemma LeadsSame(code: Code, st: State, k: nat, st': State, next: Reg)
    requires Leads(code, st, k, st', next)
    ensures st.Running? && st'.Running? && st'.top.fn == st.top.fn && st'.rest == st.rest && st'.top.dst == st.top.dst
  {
  }
}
