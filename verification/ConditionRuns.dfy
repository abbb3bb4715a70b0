/**
 Conditions at run time: what a run of the emitted code of `l && r` or `l || r` visits, and in
 which state it leaves the temporaries.
 */
module ConditionRuns {
  import opened Source
  import opened Machine
  import opened Lowering
  import opened Ownership
  import opened Legality
  import opened Matching
  import opened SimExpr
  import opened Calls
  import opened SimSteps
  import opened SimScopes
  import opened Runs
  import opened Simulation
  import opened TempConfinement
  import opened Theorems

  /**
   The machine stands at the end of the code of a condition with value `b`: each pending
   temporary is set and alive, and the counts are covered by the locals, the pending
   temporaries and the callers' references alone.
   */
  ghost predicate Evaluated(done: CG, out: Operand, b: bool, c: Ctx, st: State, ext: multiset<Obj>) {
    && Ok(done) && st.Running? && AtEnd(done, st.top)
    && (forall t :: t in done.temps ==> Usable(st.top, st.heap, t))
    && Defined(st.top, out) && (IntOf(st.top, out) != 0) == b
    && Owns(st.heap, Held(c.owned, done.moved, done.temps, st.top) + ext, c.exact)
  }

  lemma GoodIsEvaluated(done: CG, out: Operand, b: bool, c: Ctx, st: State, env: Env, ext: multiset<Obj>)
    requires Good(done, c, st, env, ext) && HasBool(st.top, out, done.next, b)
    ensures Evaluated(done, out, b, c, st, ext)
  {
    hide VarsOk, BorrowsOk, Distinct, Owns, VarRefs, TempRefs, Alive;
    var refs := Held(c.owned, done.moved, done.temps, st.top) + ext;
    forall t | t in done.temps ensures Usable(st.top, st.heap, t) {
      TempIsHeld(done.temps, st.top.sregs, t);
      assert st.top.sregs[t] in refs;
      OwnedIsAlive(st.heap, refs, c.exact, st.top.sregs[t]);
    }
  }

  /** A run that is still going after k steps was going all along. */
  lemma RunningBefore(code: Code, st: State, k: nat, j: nat)
    requires Steps(code, st, k).Running? && j <= k
    ensures Steps(code, st, j).Running?
  {
    RunPast(code, st, j, k);
  }

  /**
   Code of a condition never gets stuck. It runs on as long as the condition's calls do, or
   arrives at its end with the condition's value and every pending temporary alive.
   */
  lemma ConditionNeverStuck(w: World, e: BExpr, cg: CG, c: Ctx, st: State, env: Env, n: nat) returns (k: nat)
    requires Good(cg, c, st, env, w.ext) && LegalB(w.p, e, cg.moved, c)
    requires Linked(w.code, st.top.fn, GenB(w.p, e, cg).0) && Ready(w, c)
    ensures forall j :: 0 <= j <= k ==> Steps(w.code, st, j).Running?
    ensures EvalB(w.p, e, env, n).Timeout? ==> k >= n
    ensures EvalB(w.p, e, env, n).Val? ==>
      && Steps(w.code, st, k).rest == st.rest
      && Evaluated(GenB(w.p, e, cg).0, GenB(w.p, e, cg).1, EvalB(w.p, e, env, n).v, c, Steps(w.code, st, k), w.ext)
  {
    hide LegalB, Linked, Ready, Steps, GenB, EvalB, HasBool, Evaluated, Inv;
    var st';
    k, st' := SimB(w, e, cg, c, st, env, n);
    assert Steps(w.code, st, k).Running?;
    if EvalB(w.p, e, env, n).Val? {
      GoodIsEvaluated(GenB(w.p, e, cg).0, GenB(w.p, e, cg).1, EvalB(w.p, e, env, n).v, c, st', env, w.ext);
    }
    forall j | 0 <= j <= k ensures Steps(w.code, st, j).Running? { RunningBefore(w.code, st, k, j); }
  }

  /**
   After `l && r` or `l || r`, on either edge, exactly the temporaries of the left side are
   pending; the references of those born on the right are gone from the account.
   */
  lemma RightTempsConfined(w: World, e: BExpr, cg: CG, c: Ctx, st: State, env: Env, n: nat) returns (k: nat)
    requires e.Logic? && Good(cg, c, st, env, w.ext) && LegalB(w.p, e, cg.moved, c)
    requires Linked(w.code, st.top.fn, GenB(w.p, e, cg).0) && Ready(w, c) && EvalB(w.p, e, env, n).Val?
    ensures GenB(w.p, e, cg).0.temps == LeftDone(w.p, e, cg).temps
    ensures
      var now := Steps(w.code, st, k);
      && Evaluated(GenB(w.p, e, cg).0, GenB(w.p, e, cg).1, EvalB(w.p, e, env, n).v, c, now, w.ext)
      && (forall t :: t in LeftDone(w.p, e, cg).temps ==> Usable(now.top, now.heap, t))
      && Owns(now.heap, Held(c.owned, GenB(w.p, e, cg).0.moved, LeftDone(w.p, e, cg).temps, now.top) + w.ext, c.exact)
  {
    hide LegalB, Linked, Ready, Steps, GenB, EvalB, CloseRight, OpenRight, Inv;
    LogicIs(w.p, e, cg);
    k := ConditionNeverStuck(w, e, cg, c, st, env, n);
  }

  lemma TestLinks(code: Code, fn: nat, c1: CG, v: Operand, isAnd: bool)
    requires Ok(c1) && Linked(code, fn, OpenRight(c1, v, isAnd))
    ensures Linked(code, fn, Emit(Fresh(c1), IntCmp(c1.next, Ne, v, Imm(0))))
  {
    var test := Emit(Fresh(c1), IntCmp(c1.next, Ne, v, Imm(0)));
    assert Prefixes(test.blocks, OpenRight(c1, v, isAnd).blocks);
    LinkedBefore(code, fn, test, OpenRight(c1, v, isAnd));
  }

  /** One step after the left side the machine is still in its block. */
  lemma TestStays(w: World, c1: CG, v: Operand, isAnd: bool, b: bool, c: Ctx, st: State, env: Env)
    requires Good(c1, c, st, env, w.ext) && HasBool(st.top, v, c1.next, b)
    requires Linked(w.code, st.top.fn, OpenRight(c1, v, isAnd))
    ensures Steps(w.code, st, 1).Running? && Steps(w.code, st, 1).top.bb == c1.cur
  {
    hide Inv, Steps, Prefixes, Spares, OpenRight, Linked;
    TestLinks(w.code, st.top.fn, c1, v, isAnd);
    var s1 := NonZeroStep(w, c1, v, b, c, st, env);
  }

  /** From the fork straight to the merge block, and through the selection. */
  lemma MergeSelects(w: World, e: BExpr, c1: CG, c2: CG, c3: CG, x: Operand, c: Ctx, st: State, env: Env, b: bool)
    requires st.Running? && e.Logic? && Shape(c1, c2, c3) && c1.next < c2.next <= c3.next <= JoinRight(c1, c2, c3, x).next
    requires Linked(w.code, st.top.fn, CloseRight(c1, c2, c3, x, e.isAnd).0)
    requires Reaches(w, st, 0, st, c1.next, |c1.blocks| + 1, c1.moved, c1.temps, c1.next + 1, c, env)
    requires st.top.prev == c1.cur && b != e.isAnd && c1.moved <= c3.moved && (c.exact ==> c1.moved == c3.moved)
    ensures
      var out := CloseRight(c1, c2, c3, x, e.isAnd);
      var now := Steps(w.code, st, 1);
      Evaluated(out.0, out.1, b, c, now, w.ext) && now.rest == st.rest && now.top.bb == |c1.blocks| + 1
  {
    hide Inv, Linked, Prefixes, Spares, CloseRight, JoinRight, Evaluated, HasBool, Keeps, SameFrame, Steps;
    InvMoveMore(c1.moved, c3.moved, c1.temps, c1.next + 1, JoinRight(c1, c2, c3, x).next, c, st.top, st.heap, env, w.ext);
    var now := SimPhi(w, c1, c2, c3, x, e.isAnd, b, c, st, env);
    var out := CloseRight(c1, c2, c3, x, e.isAnd);
    GoodIsEvaluated(out.0, out.1, b, c, now, env, w.ext);
    MergeIsCurrent(c1, c2, c3, x, e.isAnd);
  }

  lemma MergeIsCurrent(c1: CG, c2: CG, c3: CG, x: Operand, isAnd: bool)
    requires Shape(c1, c2, c3)
    ensures CloseRight(c1, c2, c3, x, isAnd).0.cur == |c1.blocks| + 1
  {
    hide JoinRight, Spares;
  }

  predicate InBlock(st: State, a: nat, b: nat) {
    st.Running? && (st.top.bb == a || st.top.bb == b)
  }

  lemma EvaluatedHere(done: CG, out: Operand, b: bool, c: Ctx, st: State, ext: multiset<Obj>)
    requires Evaluated(done, out, b, c, st, ext)
    ensures st.top.bb == done.cur
  {
    hide Held, Owns;
  }

  lemma EvaluatedRuns(done: CG, out: Operand, b: bool, c: Ctx, st: State, ext: multiset<Obj>)
    requires Evaluated(done, out, b, c, st, ext)
    ensures st.Running?
  {
    hide Held, Owns;
  }

  /**
   The edges: once the left side has its value, two steps lead to the right-hand block if that
   value does not decide, and to the merge block otherwise. In the latter case the condition is
   evaluated one step later, and no block of the right side was entered.
   */
  lemma EdgeTaken(w: World, e: BExpr, cg: CG, c: Ctx, st: State, env: Env, n: nat) returns (k: nat)
    requires e.Logic? && Good(cg, c, st, env, w.ext) && LegalB(w.p, e, cg.moved, c)
    requires Linked(w.code, st.top.fn, GenB(w.p, e, cg).0) && Ready(w, c) && EvalB(w.p, e.bl, env, n).Val?
    ensures
      var c1, b := LeftDone(w.p, e, cg), EvalB(w.p, e.bl, env, n).v;
      var rhs, merge := |c1.blocks|, |c1.blocks| + 1;
      var left, fork := Steps(w.code, st, k), Steps(w.code, st, k + 2);
      && Evaluated(c1, GenB(w.p, e.bl, cg).1, b, c, left, w.ext)
      && fork.Running? && fork.rest == st.rest && fork.top.pc == 0 && fork.top.prev == c1.cur
      && fork.top.bb == (if b == e.isAnd then rhs else merge)
      && (b != e.isAnd ==>
            && Evaluated(GenB(w.p, e, cg).0, GenB(w.p, e, cg).1, b, c, Steps(w.code, st, k + 3), w.ext)
            && Steps(w.code, st, k + 3).rest == st.rest
            && forall j :: k <= j <= k + 3 ==> InBlock(Steps(w.code, st, j), c1.cur, merge))
  {
    hide LegalB, Linked, Ready, Steps, GenB, EvalB, CloseRight, OpenRight, JoinRight, Inv, MovesB, Prefixes, Spares,
      HasBool, Evaluated;
    var (c1, v) := GenB(w.p, e.bl, cg);
    var c2 := OpenRight(c1, v, e.isAnd);
    var (c3, x) := GenB(w.p, e.br, c2);
    LogicParts(w.p, e, cg);
    LogicLegal(w.p, e, cg.moved, c);
    LogicLinks(w.code, st.top.fn, c1, c2, c3, x, e.isAnd);
    var s1;
    k, s1 := SimB(w, e.bl, cg, c, st, env, n);
    var b := EvalB(w.p, e.bl, env, n).v;
    GoodIsEvaluated(c1, v, b, c, s1, env, w.ext);
    var s2 := SimOpenRight(w, v, b, e.isAnd, c1, c, s1, env);
    LeadsTrans(w.code, st, k, s1, 2, s2, cg.next, c1.next);
    if b != e.isAnd {
      GenBMoves(w.p, e.bl, cg);
      GenBMoves(w.p, e.br, c2);
      LeadsNowhere(w.code, s2, c1.next);
      MergeSelects(w, e, c1, c2, c3, x, c, s2, env, b);
      TestStays(w, c1, v, e.isAnd, b, c, s1, env);
      StepsAdd(w.code, st, k, 1);
      StepsAdd(w.code, st, k + 2, 1);
      forall j | k <= j <= k + 3
        ensures InBlock(Steps(w.code, st, j), c1.cur, |c1.blocks| + 1)
      {
        EvaluatedHere(c1, v, b, c, s1, w.ext);
        EvaluatedRuns(GenB(w.p, e, cg).0, GenB(w.p, e, cg).1, b, c, Steps(w.code, st, k + 3), w.ext);
      }
    }
  }
}
