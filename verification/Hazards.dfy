/**
 The cases legal programs leave out, as runs of the emitted code. Each starts from a state that
 satisfies the invariant with an exact account and follows the code up to the point at issue;
 there the invariant survives, or the machine can go on, if and only if a condition on that state
 holds.
 */
module Hazards {
  import opened Source
  import opened Machine
  import opened Lowering
  import opened Ownership
  import opened Legality
  import opened Matching
  import opened SimExpr
  import opened Calls
  import opened SimSteps
  import opened SimScopes
  import opened SimStores
  import opened Runs
  import opened Simulation
  import opened Leaks

  /** In an exact account a string can be used exactly as long as somebody holds it. */
  lemma AliveIfHeld(h: Heap, refs: multiset<Obj>, o: Obj)
    requires Owns(h, refs, true)
    ensures Alive(h, o) <==> o == 0 || o in refs
  {
  }

  // ---- A variable that is read and then moved ----

  /** The string in register `r`, read earlier, is still held by somebody. */
  ghost predicate StillHeld(r: Reg, cg: CG, c: Ctx, st: State, ext: multiset<Obj>)
    requires st.Running? && r in st.top.sregs
  {
    st.top.sregs[r] == 0 || st.top.sregs[r] in Held(c.owned, cg.moved, cg.temps, st.top) + ext
  }

  /** Reading `x`, then evaluating `r`, which may move `x` away. */
  lemma PendingRead(w: World, x: Var, r: SExpr, cg: CG, c: Ctx, st: State, env: Env, n: nat) returns (k: nat, st': State)
    requires Good(cg, c, st, env, w.ext) && c.exact && Ready(w, c) && Readable(c, cg.moved, x)
    requires LegalS(w.p, r, cg.moved, c) && EvalS(w.p, r, env, n).Val?
    requires Linked(w.code, st.top.fn, GenS(w.p, r, GenS(w.p, SVar(x), cg).0).0)
    ensures
      var (c1, a) := GenS(w.p, SVar(x), cg);
      var (c2, b) := GenS(w.p, r, c1);
      && Leads(w.code, st, k, st', cg.next) && Good(c2, c, st', env, w.ext) && Usable(st'.top, st'.heap, b)
      && a in st'.top.sregs && st'.top.sregs[a] == st.top.svars[x]
      && (Usable(st'.top, st'.heap, a) <==> StillHeld(a, c2, c, st', w.ext))
  {
    hide Ready, Linked, GenS, EvalS, LegalS, Steps, Owns, VarRefs, TempRefs, Distinct, BorrowsOk;
    var (c1, a) := GenS(w.p, SVar(x), cg);
    var (c2, b) := GenS(w.p, r, c1);
    ReadCode(w.p, x, cg);
    LinkedBefore(w.code, st.top.fn, c1, c2);
    var s1 := LoadStep(w.code, st.top.fn, cg, x, st, c, env, w.ext);
    LeadsSame(w.code, st, 1, s1, cg.next);
    var k2, s2 := SimS(w, r, c1, c, s1, env, n);
    LeadsTrans(w.code, st, 1, s1, k2, s2, cg.next, c1.next);
    k, st' := 1 + k2, s2;
    GenSMoves(w.p, r, c1);
    if r.SVar? { VarIsReadable(w.p, r, cg.moved, c); }
    UsableResult(r, b, EvalS(w.p, r, env, n).v, c2, s2, c, env, w.ext);
    AliveIfHeld(s2.heap, Held(c.owned, c2.moved, c2.temps, s2.top) + w.ext, s2.top.sregs[a]);
  }

  lemma ReadCode(p: Program, x: Var, cg: CG)
    requires Ok(cg)
    ensures GenS(p, SVar(x), cg) == (Emit(Fresh(cg), LoadStr(cg.next, x)), cg.next)
    ensures GenS(p, SVar(x), cg).0.moved == cg.moved && GenS(p, SVar(x), cg).0.next == cg.next + 1
  {
  }

  /**
   `x + r`: the concatenation is stuck if and only if `r` moved `x` away and the string was
   released before the concatenation came.
   */
  lemma ReadThenConcatenated(w: World, x: Var, r: SExpr, cg: CG, c: Ctx, st: State, env: Env, n: nat)
    returns (k: nat, st': State)
    requires Good(cg, c, st, env, w.ext) && c.exact && Ready(w, c) && Readable(c, cg.moved, x)
    requires LegalS(w.p, r, cg.moved, c) && EvalS(w.p, r, env, n).Val?
    requires Linked(w.code, st.top.fn, GenS(w.p, Concat(SVar(x), r), cg).0)
    ensures
      var (c1, a) := GenS(w.p, SVar(x), cg);
      var (c2, b) := GenS(w.p, r, c1);
      && Leads(w.code, st, k, st', cg.next) && AtEnd(c2, st'.top)
      && a in st'.top.sregs && st'.top.sregs[a] == st.top.svars[x]
      && (Step(w.code, st') == Stuck <==> !StillHeld(a, c2, c, st', w.ext))
  {
    hide Ready, Linked, GenS, EvalS, LegalS, Steps, Inv, Prefixes, StillHeld, Readable;
    var e := Concat(SVar(x), r);
    var (c1, a) := GenS(w.p, SVar(x), cg);
    var (c2, b) := GenS(w.p, r, c1);
    GenConcat(w.p, e, cg);
    LinkedBefore(w.code, st.top.fn, c2, GenS(w.p, e, cg).0);
    k, st' := PendingRead(w, x, r, cg, c, st, env, n);
    LeadsSame(w.code, st, k, st', cg.next);
    FetchTemp(w.code, st.top.fn, c2, ConcatStr(c2.next, a, b), st');
  }

  lemma FetchTemp(code: Code, fn: nat, cg: CG, i: Instr, st: State)
    requires Ok(cg) && Linked(code, fn, EmitTemp(cg, i).0)
    requires st.Running? && st.top.fn == fn && AtEnd(cg, st.top)
    ensures Step(code, st) == Effect(i, st.top, st.rest, st.heap)
  {
    hide Effect, Step;
    Fetch(code, fn, Fresh(cg), i, st);
  }

  /** The same for `x == r` and `x != r`. */
  lemma ReadThenCompared(w: World, equal: bool, x: Var, r: SExpr, cg: CG, c: Ctx, st: State, env: Env, n: nat)
    returns (k: nat, st': State)
    requires Good(cg, c, st, env, w.ext) && c.exact && Ready(w, c) && Readable(c, cg.moved, x)
    requires LegalS(w.p, r, cg.moved, c) && EvalS(w.p, r, env, n).Val?
    requires Linked(w.code, st.top.fn, GenB(w.p, StrCmp(equal, SVar(x), r), cg).0)
    ensures
      var (c1, a) := GenS(w.p, SVar(x), cg);
      var (c2, b) := GenS(w.p, r, c1);
      && Leads(w.code, st, k, st', cg.next) && AtEnd(c2, st'.top)
      && a in st'.top.sregs && st'.top.sregs[a] == st.top.svars[x]
      && (Step(w.code, st') == Stuck <==> !StillHeld(a, c2, c, st', w.ext))
  {
    hide Ready, Linked, GenS, GenB, EvalS, LegalS, Steps, Inv, Prefixes, StillHeld, Readable;
    var (c1, a) := GenS(w.p, SVar(x), cg);
    var (c2, b) := GenS(w.p, r, c1);
    CompareCode(w.code, st.top.fn, w.p, equal, x, r, cg);
    k, st' := PendingRead(w, x, r, cg, c, st, env, n);
    LeadsSame(w.code, st, k, st', cg.next);
    Fetch(w.code, st.top.fn, Fresh(c2), StringEquals(c2.next, a, b), st');
  }

  lemma CompareCode(code: Code, fn: nat, p: Program, equal: bool, x: Var, r: SExpr, cg: CG)
    requires Ok(cg) && Linked(code, fn, GenB(p, StrCmp(equal, SVar(x), r), cg).0)
    ensures
      var (c1, a) := GenS(p, SVar(x), cg);
      var (c2, b) := GenS(p, r, c1);
      Linked(code, fn, c2) && Linked(code, fn, Emit(Fresh(c2), StringEquals(c2.next, a, b)))
  {
    hide GenS;
    var (c1, a) := GenS(p, SVar(x), cg);
    var (c2, b) := GenS(p, r, c1);
    var c3 := Emit(Fresh(c2), StringEquals(c2.next, a, b));
    assert Prefixes(c3.blocks, GenB(p, StrCmp(equal, SVar(x), r), cg).0.blocks);
    LinkedBefore(code, fn, c3, GenB(p, StrCmp(equal, SVar(x), r), cg).0);
    LinkedBefore(code, fn, c2, c3);
  }

  // ---- Arguments ----

  /** References of the variables a call moves. */
  function GivenUp(owned: seq<Var>, moved: set<Var>, moves: set<Var>, svars: map<Var, Obj>): multiset<Obj> {
    VarRefs(owned, (set x | x in owned && (x in moved || x !in moves)), svars)
  }

  /** Two ways to hold references over a common rest: only null may be held unlike. */
  lemma SameAccount(h: Heap, base: multiset<Obj>, a: multiset<Obj>, b: multiset<Obj>)
    requires Owns(h, a + base, true)
    ensures Owns(h, b + base, true) <==> forall o :: o != 0 ==> a[o] == b[o]
  {
    forall o ensures (a + base)[o] == a[o] + base[o] && (b + base)[o] == b[o] + base[o] {}
    if Owns(h, b + base, true) {
      forall o | o != 0 ensures a[o] == b[o] {
        if o !in h.cells { assert o !in a + base && o !in b + base; }
      }
    }
    if forall o :: o != 0 ==> a[o] == b[o] {
      forall o | o in b + base && o != 0 ensures o in h.cells { assert o in a + base; }
    }
  }

  /** What may be assumed on entry, of an exact account. */
  ghost predicate Matched(params: seq<Var>, objs: seq<Obj>, given: multiset<Obj>, ext: multiset<Obj>)
    requires |params| == |objs|
  {
    && (forall k :: 0 <= k < |objs| && !params[k].own ==> objs[k] == 0 || objs[k] in ext)
    && (forall o :: o != 0 ==> given[o] == VarRefs(OwnParams(params), {}, ParamSlots(params, objs))[o])
  }

  /**
   A call with any arguments. Its callee is entered as it expects if and only if the string of
   each plain parameter is still held by somebody, and each string is given up by the caller as
   often as own parameters receive it.
   */
  lemma CallEntry(w: World, e: SExpr, cg: CG, c: Ctx, st: State, env: Env, n: nat) returns (k: nat, st': State)
    requires Good(cg, c, st, env, w.ext) && c.exact && Ready(w, c)
    requires e.Call? && e.f < |w.p| && |e.args| == |w.p[e.f].params|
    requires LegalArgs(w.p, e.args, cg.moved, c) && EvalArgs(w.p, e.args, env, n).Val?
    requires Linked(w.code, st.top.fn, GenS(w.p, e, cg).0)
    ensures
      var (c1, regs) := GenArgs(w.p, e.args, cg);
      var moves := OwnMoves(e.args, w.p[e.f].params);
      && Leads(w.code, st, k, st', cg.next) && AtEnd(c1, st'.top) && (forall a :: a in regs ==> a in st'.top.sregs)
      && var objs := ArgObjs(st'.top, regs);
         var ext := AfterCall(w, e.f, e.args, c1, c, st'.top);
         && Step(w.code, st') == Running(Entry(e.f, c1.next, objs), [st'.top.(pc := st'.top.pc + 1)] + st'.rest, st'.heap)
         && (Enterable(w.p[e.f], objs, EvalArgs(w.p, e.args, env, n).v, st'.heap, ext, true)
             <==> Matched(w.p[e.f].params, objs, GivenUp(c.owned, c1.moved, moves, st'.top.svars), ext))
  {
    hide Ready, Linked, GenS, GenArgs, EvalArgs, LegalArgs, Steps, Inv, Prefixes, OwnMoves, Matched, Enterable;
    var (c1, regs) := GenArgs(w.p, e.args, cg);
    GenCall(w.p, e, cg);
    LinkedBefore(w.code, st.top.fn, c1, GenS(w.p, e, cg).0);
    k, st' := SimArgs(w, e.args, cg, c, st, env, n);
    LeadsSame(w.code, st, k, st', cg.next);
    LinkedSame(w.code, st.top.fn, EmitTemp(c1, CallFn(c1.next, e.f, regs)).0, GenS(w.p, e, cg).0);
    ArgsAreSet(e.args, regs, EvalArgs(w.p, e.args, env, n).v, c1, st');
    FetchTemp(w.code, st.top.fn, c1, CallFn(c1.next, e.f, regs), st');
    EntryAccount(w, e, regs, EvalArgs(w.p, e.args, env, n).v, c1, c, st', env);
  }

  lemma ArgsAreSet(args: seq<SExpr>, regs: seq<Reg>, vs: seq<SVal>, cg: CG, st: State)
    requires st.Running? && ArgsReady(args, regs, vs, cg.temps, cg.next, st.top, st.heap)
    ensures forall a :: a in regs ==> a in st.top.sregs
  {
    forall a | a in regs ensures a in st.top.sregs {
      var k :| 0 <= k < |regs| && regs[k] == a;
      assert Carries(args[k], regs[k], cg.temps, st.top);
    }
  }

  lemma EntryAccount(w: World, e: SExpr, regs: seq<Reg>, vs: seq<SVal>, c1: CG, c: Ctx, st: State, env: Env)
    requires Good(c1, c, st, env, w.ext) && c.exact && e.Call? && e.f < |w.p| && |e.args| == |w.p[e.f].params|
    requires ArgsReady(e.args, regs, vs, c1.temps, c1.next, st.top, st.heap)
    requires forall a :: a in regs ==> a in st.top.sregs
    ensures
      var objs := ArgObjs(st.top, regs);
      var ext := AfterCall(w, e.f, e.args, c1, c, st.top);
      Enterable(w.p[e.f], objs, vs, st.heap, ext, true)
      <==> Matched(w.p[e.f].params, objs,
                   GivenUp(c.owned, c1.moved, OwnMoves(e.args, w.p[e.f].params), st.top.svars), ext)
  {
    hide Owns, VarsOk, BorrowsOk, Distinct, VarRefs, TempRefs, OwnMoves, OwnParams, ParamSlots, Carries;
    var params := w.p[e.f].params;
    var moves := OwnMoves(e.args, params);
    var objs := ArgObjs(st.top, regs);
    var given := GivenUp(c.owned, c1.moved, moves, st.top.svars);
    var received := VarRefs(OwnParams(params), {}, ParamSlots(params, objs));
    var ext := AfterCall(w, e.f, e.args, c1, c, st.top);
    forall k | 0 <= k < |objs| ensures Denotes(st.heap, objs[k], vs[k]) {
      assert Denotes(st.heap, st.top.sregs[regs[k]], vs[k]);
    }
    GivenAway(c.owned, c1.moved, moves, st.top.svars);
    assert Held(c.owned, c1.moved, c1.temps, st.top) + w.ext == given + ext;
    SameAccount(st.heap, ext, given, received);
  }

  lemma GivenAway(owned: seq<Var>, moved: set<Var>, moves: set<Var>, svars: map<Var, Obj>)
    ensures VarRefs(owned, moved, svars) == VarRefs(owned, moved + moves, svars) + GivenUp(owned, moved, moves, svars)
  {
    var rest := set x | x in owned && (x in moved || x !in moves);
    Split(owned, moved, moved + moves, rest, svars);
  }

  // ---- Where strings are forgotten ----

  /** The context of a jump's target: `outer` is what is tracked there. */
  function Only(cg: CG, c: Ctx, outer: seq<Var>): Ctx {
    At(cg, c).(owned := outer)
  }

  lemma InvNarrowed(moved: set<Var>, next: Reg, c: Ctx, inner: seq<Var>, outer: seq<Var>, f: Frame, h: Heap, env: Env,
                    ext: multiset<Obj>)
    requires Inv(moved, [], next, c, f, h, env, ext) && c.exact && c.owned == outer + inner
    ensures Inv(moved, [], 0, c.(owned := outer), f, h, env, ext) <==> AllNull(inner, moved, f.svars)
  {
    hide Owns, VarsOk, BorrowsOk, Held, VarRefs, TempRefs;
    VarsFewer(c, c.(owned := outer), moved, f, h, env, ext);
    forall i, j | 0 <= i < j < |outer| ensures outer[i] != outer[j] {
      assert c.owned[i] == outer[i] && c.owned[j] == outer[j];
    }
    JumpRefs(outer, inner, moved, f, h, ext);
  }

  /**
   The branch emitted for `break` or `continue`: at its target the invariant of the scopes outside
   the loop body holds if and only if every unmoved string declared in the body is null.
   */
  lemma JumpAccount(w: World, s: Stmt, cg: CG, c: Ctx, outer: seq<Var>, inner: seq<Var>, st: State, env: Env)
    returns (st': State)
    requires (s == Break || s == Continue) && Ok(cg) && cg.scopes != [] && cg.loops.InLoop? && cg.temps == []
    requires Good(cg, At(cg, c), st, env, w.ext) && c.exact && Flat(cg.scopes) == outer + inner
    requires Linked(w.code, st.top.fn, GenStmt(w.p, s, cg))
    ensures st' == Step(w.code, st) && st'.Running? && SameSlots(st.top, st'.top) && st'.heap == st.heap
    ensures At0(if s == Break then cg.loops.breakTo else cg.loops.continueTo, st'.top)
    ensures Inv(cg.moved, [], 0, Only(cg, c, outer), st'.top, st'.heap, env, w.ext)
       <==> AllNull(inner, cg.moved, st.top.svars)
  {
    hide Inv, Steps, Linked, Flat, Keeps, SameFrame, Prefixes;
    var b := if s == Break then cg.loops.breakTo else cg.loops.continueTo;
    Fetch(w.code, st.top.fn, cg, Br(b), st);
    st' := Running(Jump(st.top, b), st.rest, st.heap);
    JumpInv(cg, b, At(cg, c), st, env, w.ext);
    InvNarrowed(cg.moved, cg.next, At(cg, c), inner, outer, st'.top, st'.heap, env, w.ext);
  }

  /** What is moved according to `a`, but not to `b`, is null. */
  predicate NullIfOnlyIn(xs: seq<Var>, a: set<Var>, b: set<Var>, svars: map<Var, Obj>) {
    forall x :: x in xs && x in a && x !in b && x in svars ==> svars[x] == 0
  }

  lemma InvMerged(moved: set<Var>, merged: set<Var>, temps: seq<Reg>, next: Reg, next': Reg, c: Ctx, f: Frame, h: Heap,
                  env: Env, ext: multiset<Obj>)
    requires Inv(moved, temps, next, c, f, h, env, ext) && c.exact && moved <= merged && (temps == [] || next <= next')
    ensures Inv(merged, temps, next', c, f, h, env, ext) <==> NullIfOnlyIn(c.owned, merged, moved, f.svars)
  {
    hide Owns, BorrowsOk, VarRefs, TempRefs, Distinct, Denotes;
    assert VarsOk(c, merged, f, h, env);
    Regrouped(c.owned, moved, temps, f, ext);
    Regrouped(c.owned, merged, temps, f, ext);
    MergeRefs(c.owned, moved, merged, f, h, TempRefs(temps, f.sregs) + ext);
  }

  lemma Regrouped(owned: seq<Var>, moved: set<Var>, temps: seq<Reg>, f: Frame, ext: multiset<Obj>)
    ensures Held(owned, moved, temps, f) + ext == Held(owned, moved, [], f) + (TempRefs(temps, f.sregs) + ext)
  {
    hide VarRefs;
  }

  /**
   The branch at the end of an `if` branch: at the merge, where what either branch moved counts as
   moved, the invariant holds if and only if what only the other branch moved is null.
   */
  lemma MergeAccount(w: World, s: Stmt, thn: bool, cg: CG, c: Ctx, st: State, env: Env) returns (st': State)
    requires s.If? && Ok(cg) && cg.scopes != [] && c.exact
    requires
      var ce := BranchEnd(w.p, s, thn, cg);
      && Good(ce, At(cg, c), st, env, w.ext) && !Terminated(ce) && ce.temps == []
      && Linked(w.code, st.top.fn, JoinTo(ce, IfBase(w.p, s, cg) + 2))
    ensures st' == Step(w.code, st) && st'.Running? && SameSlots(st.top, st'.top) && st'.heap == st.heap
    ensures At0(GenIf(w.p, s, cg).cur, st'.top)
    ensures Inv(GenIf(w.p, s, cg).moved, [], 0, At(cg, c), st'.top, st'.heap, env, w.ext)
       <==> NullIfOnlyIn(Flat(cg.scopes), GenIf(w.p, s, cg).moved, BranchEnd(w.p, s, thn, cg).moved, st.top.svars)
  {
    hide Inv, Steps, Linked, Flat, Keeps, SameFrame, Prefixes, GenBlock, ThenStart, ElseStart, ThenEnd, ElseEnd, GenIf;
    GenIfParts(w.p, s, cg);
    var ce := BranchEnd(w.p, s, thn, cg);
    var b := IfBase(w.p, s, cg) + 2;
    Fetch(w.code, st.top.fn, ce, Br(b), st);
    st' := Running(Jump(st.top, b), st.rest, st.heap);
    JumpInv(ce, b, At(cg, c), st, env, w.ext);
    InvMerged(ce.moved, GenIf(w.p, s, cg).moved, [], ce.next, 0, At(cg, c), st'.top, st'.heap, env, w.ext);
  }

  function BranchEnd(p: Program, s: Stmt, thn: bool, cg: CG): (r: CG)
    requires Ok(cg) && s.If?
    ensures Ok(r)
  {
    if thn then GenBlock(p, s.thn, ThenStart(p, s, cg)) else GenBlock(p, s.els, ElseStart(p, s, cg))
  }

  /**
   The return at the end of a body: only what the caller holds is left, as it expects, if and only
   if every own parameter is moved or null.
   */
  lemma EndAccount(w: World, f: Fun, c: Ctx, st: State, env: Env)
    requires
      var ce := GenBody(w.p, f);
      && Good(ce, At(Prologue(f), c), st, env, w.ext) && c.exact && !Terminated(ce) && ce.temps == []
      && Linked(w.code, st.top.fn, Emit(ce, RetNull))
    ensures Step(w.code, st) == PopFrame(st.rest, st.top.dst, 0, st.heap)
    ensures Returned(w, st, 1, 0, st.heap, Null, true)
       <==> AllNull(OwnParams(f.params), GenBody(w.p, f).moved, st.top.svars)
  {
    hide Flat, Prefixes, GenBlock, Prologue, VarsOk, BorrowsOk, Distinct, VarRefs, TempRefs, Owns;
    var ce := GenBody(w.p, f);
    PrologueOpen(f);
    Fetch(w.code, st.top.fn, ce, RetNull, st);
    OneStep(w.code, st, PopFrame(st.rest, st.top.dst, 0, st.heap));
    EndRefs(OwnParams(f.params), ce.moved, st.top, st.heap, w.ext);
    NullIsFree(st.heap, w.ext);
  }

  lemma NullIsFree(h: Heap, refs: multiset<Obj>)
    ensures Owns(h, multiset{0} + refs, true) <==> Owns(h, refs, true)
  {
    forall o | o != 0 ensures (multiset{0} + refs)[o] == refs[o] {}
    forall o | o != 0 ensures o in multiset{0} + refs <==> o in refs {}
  }

  // ---- Assignments ----

  /** What an assignment does after its value, found in register `a`: it releases the old one. */
  lemma AssignSteps(w: World, x: Var, e: SExpr, a: Reg, c1: CG, st: State) returns (st': State)
    requires Ok(c1) && st.Running? && AtEnd(c1, st.top) && a in st.top.sregs && a < c1.next
    requires x in st.top.svars && Linked(w.code, st.top.fn, AssignTail(x, e, c1, a))
    ensures Steps(w.code, st, 2) == Stuck <==> !Alive(st.heap, st.top.svars[x])
    ensures Alive(st.heap, st.top.svars[x]) ==>
      && Leads(w.code, st, 3, st', c1.next) && AtEnd(AssignTail(x, e, c1, a), st'.top)
      && st'.heap == Recount(st.heap, st.top.svars[x], -1)
      && st'.top.svars == st.top.svars[x := st.top.sregs[a]]
      && st'.top.sregs == st.top.sregs[c1.next := st.top.svars[x]]
  {
    hide AssignTail, Linked, Prefixes;
    AssignLinks(w.code, st.top.fn, x, e, c1, a);
    var c2 := Emit(Fresh(c1), LoadStr(c1.next, x));
    var prior := st.top.svars[x];
    Fetch(w.code, st.top.fn, Fresh(c1), LoadStr(c1.next, x), st);
    var s1 := Running(SetS(st.top, c1.next, prior), st.rest, st.heap);
    Fetch(w.code, st.top.fn, c2, StringRelease(c1.next), s1);
    TwoSteps(w.code, st, s1);
    st' := st;
    if Alive(st.heap, prior) {
      var s2 := Running(s1.top.(pc := s1.top.pc + 1), st.rest, Recount(st.heap, prior, -1));
      assert Steps(w.code, st, 2) == s2;
      st' := StoreStep(w, x, a, Emit(c2, StringRelease(c1.next)), s2);
      StepsAdd(w.code, st, 2, 1);
      TailEnd(x, e, c1, a);
    }
  }

  lemma TwoSteps(code: Code, st: State, s1: State)
    requires Step(code, st) == s1
    ensures Steps(code, st, 2) == Step(code, s1)
  {
    assert Steps(code, s1, 1) == Steps(code, Step(code, s1), 0);
  }

  lemma TailEnd(x: Var, e: SExpr, c1: CG, a: Reg)
    requires Ok(c1)
    ensures
      var c2 := Emit(Emit(Fresh(c1), LoadStr(c1.next, x)), StringRelease(c1.next));
      forall f :: AtEnd(Emit(c2, StoreStr(x, a)), f) ==> AtEnd(AssignTail(x, e, c1, a), f)
  {
  }

  /** A release paid from the account, against a reference that is no longer counted. */
  lemma Traded(h: Heap, refs: multiset<Obj>, prior: Obj, o: Obj)
    requires Owns(h, refs + multiset{o}, true) && (prior == 0 || prior in h.cells)
    ensures Owns(Recount(h, prior, -1), refs, true) <==> prior == o
  {
    forall q ensures (refs + multiset{o})[q] == refs[q] + (if q == o then 1 else 0) {}
    if prior == o {
      ReleaseDrops(h, refs, true, o);
    } else if o != 0 {
      assert o in refs + multiset{o};
      assert Recount(h, prior, -1).cells[o].count == refs[o] + 1;
    } else {
      assert Recount(h, prior, -1).cells[prior].count + 1 == refs[prior];
    }
  }

  /** An uncounted reference in exchange for the release of a counted one. */
  lemma Copied(h: Heap, refs: multiset<Obj>, prior: Obj, o: Obj, exact: bool)
    requires Owns(h, refs + multiset{prior}, true)
    ensures Owns(Recount(h, prior, -1), refs + multiset{o}, exact) <==> o == 0
  {
    ReleaseDrops(h, refs, true, prior);
    Uncounted(Recount(h, prior, -1), refs, multiset{o}, exact);
  }

  /**
   A plain copy `x = y` between variables: the code releases the old value of `x` and retains
   nothing, so its end has a covering account if and only if the value of `y` is null.
   */
  lemma CopyAccount(w: World, x: Var, y: Var, cg: CG, c: Ctx, st: State, env: Env, exact: bool) returns (st': State)
    requires Good(cg, c, st, env, w.ext) && c.exact && cg.scopes != [] && !IsMove(x, SVar(y))
    requires x in c.owned && x !in cg.moved && Readable(c, cg.moved, y)
    requires Linked(w.code, st.top.fn, GenStmt(w.p, AssignStr(x, SVar(y)), cg))
    ensures Leads(w.code, st, 4, st', cg.next) && AtEnd(GenStmt(w.p, AssignStr(x, SVar(y)), cg), st'.top)
    ensures y in st.top.svars && st'.top.svars == st.top.svars[x := st.top.svars[y]]
    ensures Owns(st'.heap, Held(c.owned, cg.moved, cg.temps, st'.top) + w.ext, exact) <==> st.top.svars[y] == 0
  {
    hide Linked, AssignTail, Steps, GenStmt, Owns, VarRefs, TempRefs, Distinct, BorrowsOk, Prefixes;
    var e := SVar(y);
    var (c1, a) := GenS(w.p, e, cg);
    AssignBefore(w.code, st.top.fn, w.p, x, e, cg);
    ReadCode(w.p, y, cg);
    assert Readable(c, cg.moved, x);
    var s1 := LoadStep(w.code, st.top.fn, cg, y, st, c, env, w.ext);
    LeadsSame(w.code, st, 1, s1, cg.next);
    var prior, o := st.top.svars[x], st.top.svars[y];
    var before, after := VarRefs(c.owned, cg.moved, st.top.svars), VarRefs(c.owned, cg.moved, st.top.svars[x := o]);
    var rest := TempRefs(cg.temps, st.top.sregs) + w.ext;
    assert before + TempRefs(cg.temps, st.top.sregs) + w.ext == before + rest;
    VarIsHeld(c.owned, cg.moved, st.top.svars, x);
    AliveIfHeld(st.heap, before + rest, prior);
    st' := AssignSteps(w, x, e, a, c1, s1);
    LeadsTrans(w.code, st, 1, s1, 3, st', cg.next, c1.next);
    VarRefsStore(c.owned, cg.moved, st.top.svars, x, o);
    TempRefsFrame(cg.temps, st.top.sregs, st'.top.sregs);
    CopiedHeld(st.heap, before, after, rest, prior, o, exact);
    assert after + TempRefs(cg.temps, st.top.sregs) + w.ext == after + rest;
  }

  lemma CopiedHeld(h: Heap, before: multiset<Obj>, after: multiset<Obj>, rest: multiset<Obj>, prior: Obj, o: Obj, exact: bool)
    requires Owns(h, before + rest, true) && after + multiset{prior} == before + multiset{o} && prior in before
    ensures Owns(Recount(h, prior, -1), after + rest, exact) <==> o == 0
  {
    hide Owns;
    var refs := before - multiset{prior} + rest;
    assert refs + multiset{prior} == before + rest;
    assert after == before - multiset{prior} + multiset{o} by {
      assert after == after + multiset{prior} - multiset{prior};
      assert before + multiset{o} - multiset{prior} == before - multiset{prior} + multiset{o};
    }
    assert after + rest == refs + multiset{o};
    Copied(h, refs, prior, o, exact);
  }

  lemma AssignBefore(code: Code, fn: nat, p: Program, x: Var, e: SExpr, cg: CG)
    requires Ok(cg) && cg.scopes != [] && Linked(code, fn, GenStmt(p, AssignStr(x, e), cg))
    ensures
      var (c1, a) := GenS(p, e, cg);
      && Linked(code, fn, AssignTail(x, e, c1, a)) && Linked(code, fn, c1)
      && GenStmt(p, AssignStr(x, e), cg) == AssignTail(x, e, c1, a)
  {
    hide GenS, GenStmt, AssignTail, Prefixes;
    var (c1, a) := GenS(p, e, cg);
    AssignIs(p, x, e, cg);
    GenSimple(p, AssignStr(x, e), cg);
    LinkedBefore(code, fn, c1, AssignTail(x, e, c1, a));
  }

  /**
   An assignment to a variable whose reference is not counted, a borrowed parameter or a variable
   that was moved, from the state `st` in which its value is the temporary `a`. Releasing the
   old value is stuck if and only if nobody holds it any more.
   */
  lemma UncountedRelease(w: World, x: Var, e: SExpr, cg: CG, c: Ctx, st: State, env: Env)
    requires Ok(cg) && cg.scopes != [] && Good(GenS(w.p, e, cg).0, c, st, env, w.ext) && c.exact
    requires x in st.top.svars && GenS(w.p, e, cg).1 in GenS(w.p, e, cg).0.temps
    requires Linked(w.code, st.top.fn, GenStmt(w.p, AssignStr(x, e), cg))
    ensures Steps(w.code, st, 2) == Stuck
       <==> st.top.svars[x] != 0
            && st.top.svars[x] !in Held(c.owned, GenS(w.p, e, cg).0.moved, GenS(w.p, e, cg).0.temps, st.top) + w.ext
  {
    hide Linked, AssignTail, Steps, GenStmt, GenS, Owns, VarRefs, TempRefs, Distinct, VarsOk, BorrowsOk, Alive;
    var (c1, a) := GenS(w.p, e, cg);
    AssignBefore(w.code, st.top.fn, w.p, x, e, cg);
    AliveIfHeld(st.heap, Held(c.owned, c1.moved, c1.temps, st.top) + w.ext, st.top.svars[x]);
    var st' := AssignSteps(w, x, e, a, c1, st);
  }

  /** If somebody holds it, the account stays exact if and only if the new value is that string again. */
  lemma UncountedStore(w: World, x: Var, e: SExpr, cg: CG, c: Ctx, st: State, env: Env) returns (st': State)
    requires Ok(cg) && cg.scopes != [] && Good(GenS(w.p, e, cg).0, c, st, env, w.ext) && c.exact
    requires x in st.top.svars && (x in c.owned ==> x in GenS(w.p, e, cg).0.moved)
    requires GenS(w.p, e, cg).1 in GenS(w.p, e, cg).0.temps && Alive(st.heap, st.top.svars[x])
    requires Linked(w.code, st.top.fn, GenStmt(w.p, AssignStr(x, e), cg))
    ensures
      var (c1, a) := GenS(w.p, e, cg);
      && a in st.top.sregs && Leads(w.code, st, 3, st', c1.next)
      && st'.top.svars == st.top.svars[x := st.top.sregs[a]]
      && (Owns(st'.heap, Held(c.owned, c1.moved, Without(c1.temps, a), st'.top) + w.ext, true)
          <==> st.top.sregs[a] == st.top.svars[x])
  {
    hide Linked, AssignTail, Steps, GenStmt, GenS, Owns, VarRefs, TempRefs, Distinct, VarsOk, BorrowsOk, Without, Alive;
    var (c1, a) := GenS(w.p, e, cg);
    AssignBefore(w.code, st.top.fn, w.p, x, e, cg);
    var prior, o := st.top.svars[x], st.top.sregs[a];
    st' := AssignSteps(w, x, e, a, c1, st);
    StoredUncounted(c.owned, c1.moved, c1.temps, a, x, o, st.top, st'.top, c1.next);
    var left := Held(c.owned, c1.moved, Without(c1.temps, a), st'.top) + w.ext;
    assert Held(c.owned, c1.moved, c1.temps, st.top) + w.ext == left + multiset{o};
    TradedAlive(st.heap, left, prior, o);
  }

  lemma TradedAlive(h: Heap, refs: multiset<Obj>, prior: Obj, o: Obj)
    requires Owns(h, refs + multiset{o}, true) && Alive(h, prior)
    ensures Owns(Recount(h, prior, -1), refs, true) <==> prior == o
  {
    Traded(h, refs, prior, o);
  }

  lemma StoredUncounted(owned: seq<Var>, moved: set<Var>, temps: seq<Reg>, a: Reg, x: Var, o: Obj, f: Frame, g: Frame,
                        next: Reg)
    requires (x in owned ==> x in moved) && a in temps && a in f.sregs && f.sregs[a] == o && TempsOk(temps, next, f)
    requires g.svars == f.svars[x := o] && forall r :: r < next && r in f.sregs ==> r in g.sregs && g.sregs[r] == f.sregs[r]
    ensures Held(owned, moved, temps, f) == Held(owned, moved, Without(temps, a), g) + multiset{o}
  {
    VarRefsFrame(owned, moved, f.svars, g.svars);
    WithoutHeld(temps, a, f.sregs);
    TempRefsFrame(Without(temps, a), f.sregs, g.sregs);
    hide VarRefs, TempRefs, Without;
  }

  // ---- Moves that happen on one path only, or again ----

  /**
   `l && r` or `l || r` where the value `b` of `l` decides: at the merge, where the moves of `r`
   count, the invariant holds if and only if what `r` would have moved is null.
   */
  lemma SkipAccount(w: World, e: BExpr, b: bool, cg: CG, c: Ctx, st: State, env: Env) returns (st': State)
    requires Ok(cg) && e.Logic? && b != e.isAnd && c.exact && Good(GenB(w.p, e.bl, cg).0, c, st, env, w.ext)
    requires HasBool(st.top, GenB(w.p, e.bl, cg).1, GenB(w.p, e.bl, cg).0.next, b)
    requires Linked(w.code, st.top.fn, GenB(w.p, e, cg).0)
    ensures Leads(w.code, st, 2, st', GenB(w.p, e.bl, cg).0.next) && At0(|GenB(w.p, e.bl, cg).0.blocks| + 1, st'.top)
    ensures Inv(GenB(w.p, e, cg).0.moved, GenB(w.p, e.bl, cg).0.temps, GenB(w.p, e, cg).0.next, c, st'.top, st'.heap, env, w.ext)
       <==> NullIfOnlyIn(c.owned, GenB(w.p, e, cg).0.moved, GenB(w.p, e.bl, cg).0.moved, st'.top.svars)
  {
    hide Linked, Steps, GenB, Inv, OpenRight, CloseRight, JoinRight, Prefixes, HasBool;
    var (c1, v) := GenB(w.p, e.bl, cg);
    var c2 := OpenRight(c1, v, e.isAnd);
    var (c3, x) := GenB(w.p, e.br, c2);
    LogicParts(w.p, e, cg);
    LogicLinks(w.code, st.top.fn, c1, c2, c3, x, e.isAnd);
    st' := SimOpenRight(w, v, b, e.isAnd, c1, c, st, env);
    GenBMoves(w.p, e.br, c2);
    var next := GenB(w.p, e, cg).0.next;
    InvMerged(c1.moved, c3.moved, c1.temps, c1.next + 1, next, c, st'.top, st'.heap, env, w.ext);
  }

  /**
   The branch from the end of a while body back to the condition, whose code takes nothing of what
   the condition moves to be moved: it has a covering account if and only if all that is null.
   */
  lemma LoopAccount(w: World, s: Stmt, cg: CG, c: Ctx, st: State, env: Env, exact: bool) returns (st': State)
    requires s.While? && Ok(cg) && c.exact
    requires
      var ce := GenBlock(w.p, s.body, WhileStart(w.p, s, cg));
      && Good(ce, c, st, env, w.ext) && !Terminated(ce) && ce.temps == [] && cg.moved <= ce.moved
      && Linked(w.code, st.top.fn, JoinTo(ce, |cg.blocks|))
    ensures st' == Step(w.code, st) && st'.Running? && SameSlots(st.top, st'.top) && st'.heap == st.heap
    ensures At0(|cg.blocks|, st'.top)
    ensures Owns(st'.heap, Held(c.owned, cg.moved, [], st'.top) + w.ext, exact)
       <==> NullIfOnlyIn(c.owned, GenBlock(w.p, s.body, WhileStart(w.p, s, cg)).moved, cg.moved, st.top.svars)
  {
    hide Linked, GenBlock, WhileStart, Prefixes, VarRefs, TempRefs, Owns, VarsOk, BorrowsOk, Distinct;
    var ce := GenBlock(w.p, s.body, WhileStart(w.p, s, cg));
    Fetch(w.code, st.top.fn, ce, Br(|cg.blocks|), st);
    st' := Running(Jump(st.top, |cg.blocks|), st.rest, st.heap);
    UnmovedRefs(c.owned, cg.moved, ce.moved, st.top, st.heap, w.ext, exact);
  }

  /** Variables that no longer count as moved bring back references nobody counted. */
  lemma UnmovedRefs(owned: seq<Var>, moved: set<Var>, more: set<Var>, f: Frame, h: Heap, ext: multiset<Obj>, exact: bool)
    requires Owns(h, Held(owned, more, [], f) + ext, true) && moved <= more
    ensures Owns(h, Held(owned, moved, [], f) + ext, exact) <==> NullIfOnlyIn(owned, more, moved, f.svars)
  {
    hide Owns;
    var rest := (set x | x in owned && (x in moved || x !in more));
    Split(owned, moved, more, rest, f.svars);
    NullRefs(owned, rest, f.svars);
    var extra := VarRefs(owned, rest, f.svars);
    Uncounted(h, Held(owned, more, [], f) + ext, extra, exact);
    assert Held(owned, moved, [], f) + ext == Held(owned, more, [], f) + ext + extra;
  }

  // ---- Variables that were never assigned ----

  /** A release at the end of a scope is stuck exactly on a slot never written or a string nobody holds. */
  lemma ScopeRelease(w: World, x: Var, cg: CG, c: Ctx, st: State, env: Env)
    requires Good(cg, c, st, env, w.ext) && c.exact && x !in cg.moved
    requires Linked(w.code, st.top.fn, ReleaseVars(cg, [x]))
    ensures Steps(w.code, st, 2) == Stuck
       <==> x !in st.top.svars
            || (st.top.svars[x] != 0 && st.top.svars[x] !in Held(c.owned, cg.moved, cg.temps, st.top) + w.ext)
  {
    hide Linked, Owns, VarRefs, TempRefs, Distinct, VarsOk, BorrowsOk, Prefixes;
    var c1 := Emit(Fresh(cg), LoadStr(cg.next, x));
    var c2 := Emit(c1, StringRelease(cg.next));
    assert [x][1..] == [];
    assert ReleaseVars(c2, []) == c2;
    assert ReleaseVars(cg, [x]) == c2;
    LinkedBefore(w.code, st.top.fn, c1, c2);
    Fetch(w.code, st.top.fn, Fresh(cg), LoadStr(cg.next, x), st);
    TwoSteps(w.code, st, Step(w.code, st));
    if x in st.top.svars {
      AliveIfHeld(st.heap, Held(c.owned, cg.moved, cg.temps, st.top) + w.ext, st.top.svars[x]);
      Fetch(w.code, st.top.fn, c1, StringRelease(cg.next), Step(w.code, st));
    }
  }
}
