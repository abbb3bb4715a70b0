/**
 When a machine state matches a compile-time state and a source environment, and what single
 emitted instructions do to the match.
 */
module Matching {
  import opened Source
  import opened Machine
  import opened Lowering
  import opened Ownership
  import opened Legality

  /** The final code of function `fn` contains everything emitted in `cg`. */
  ghost predicate Linked(code: Code, fn: nat, cg: CG) {
    fn < |code| && Prefixes(cg.blocks, code[fn])
  }

  ghost predicate AtEnd(cg: CG, f: Frame)
    requires Ok(cg)
  {
    f.bb == cg.cur && f.pc == Here(cg)
  }

  // ---- The invariant ----

  /** Readable variables hold their source values. */
  ghost predicate VarsOk(c: Ctx, moved: set<Var>, f: Frame, h: Heap, env: Env) {
    && (forall x :: Readable(c, moved, x) ==>
          x in f.svars && x in env.strs && Denotes(h, f.svars[x], env.strs[x]))
    && (forall x :: x in c.ints ==> x in f.ivars && x in env.ints && f.ivars[x] == env.ints[x])
  }

  ghost predicate TempsOk(temps: seq<Reg>, next: Reg, f: Frame) {
    forall t :: t in temps ==> t < next && t in f.sregs
  }

  /** The caller keeps borrowed arguments alive. */
  ghost predicate BorrowsOk(c: Ctx, f: Frame, ext: multiset<Obj>) {
    forall x :: x in c.borrowed ==> x in f.svars && (f.svars[x] == 0 || f.svars[x] in ext)
  }

  /** References held by this frame: unmoved tracked locals and pending temporaries. */
  function Held(owned: seq<Var>, moved: set<Var>, temps: seq<Reg>, f: Frame): multiset<Obj> {
    VarRefs(owned, moved, f.svars) + TempRefs(temps, f.sregs)
  }

  /**
   The ownership invariant of a running function: with `ext` the references held by callers,
   each count covers (or, if exact, equals) locals plus temporaries plus `ext`.
   */
  ghost predicate Inv(moved: set<Var>, temps: seq<Reg>, next: Reg, c: Ctx, f: Frame, h: Heap, env: Env,
                      ext: multiset<Obj>)
  {
    && Distinct(c.owned)
    && VarsOk(c, moved, f, h, env)
    && TempsOk(temps, next, f)
    && BorrowsOk(c, f, ext)
    && Owns(h, Held(c.owned, moved, temps, f) + ext, c.exact)
  }

  ghost predicate Good(cg: CG, c: Ctx, st: State, env: Env, ext: multiset<Obj>) {
    && Ok(cg)
    && st.Running?
    && AtEnd(cg, st.top)
    && Inv(cg.moved, cg.temps, cg.next, c, st.top, st.heap, env, ext)
  }

  ghost predicate SameFrame(f: Frame, g: Frame, next: Reg) {
    && g.fn == f.fn && g.dst == f.dst && g.args == f.args
    && (forall r :: r < next && r in f.sregs ==> r in g.sregs && g.sregs[r] == f.sregs[r])
    && (forall r :: r < next && r in f.iregs ==> r in g.iregs && g.iregs[r] == f.iregs[r])
  }

  ghost predicate SameSlots(f: Frame, g: Frame) {
    g.svars == f.svars && g.ivars == f.ivars
  }

  /** From `st`, k steps lead to `st'`, in the same frame and above the same callers. */
  ghost predicate Leads(code: Code, st: State, k: nat, st': State, next: Reg) {
    && st.Running? && st'.Running?
    && Steps(code, st, k) == st'
    && SameFrame(st.top, st'.top, next)
    && st'.rest == st.rest
    && Keeps(st.heap, st'.heap)
  }

  /** An expression was evaluated: `Leads`, and no variable changed. */
  ghost predicate Arrives(code: Code, st: State, k: nat, st': State, cg: CG, cg': CG, c: Ctx, env: Env,
                          ext: multiset<Obj>)
  {
    && Leads(code, st, k, st', cg.next)
    && SameSlots(st.top, st'.top)
    && Good(cg', c, st', env, ext)
  }

  /** The machine is still running after at least n steps. */
  ghost predicate StillRuns(code: Code, st: State, k: nat, n: int) {
    k >= n && Steps(code, st, k).Running?
  }

  // ---- Composition ----

  lemma LeadsTrans(code: Code, a: State, j: nat, b: State, k: nat, d: State, m: Reg, n: Reg)
    requires Leads(code, a, j, b, m) && Leads(code, b, k, d, n) && m <= n
    ensures Leads(code, a, j + k, d, m)
  {
    StepsAdd(code, a, j, k);
  }

  lemma ArrivesTrans(code: Code, a: State, j: nat, b: State, k: nat, d: State,
                     c0: CG, c1: CG, c2: CG, c: Ctx, env: Env, ext: multiset<Obj>)
    requires Arrives(code, a, j, b, c0, c1, c, env, ext) && Arrives(code, b, k, d, c1, c2, c, env, ext)
    requires c0.next <= c1.next
    ensures Arrives(code, a, j + k, d, c0, c2, c, env, ext)
  {
    hide Steps, Good, Keeps;
    LeadsTrans(code, a, j, b, k, d, c0.next, c1.next);
  }

  lemma StillRunsLater(code: Code, a: State, j: nat, b: State, k: nat, n: int)
    requires Steps(code, a, j) == b && StillRuns(code, b, k, n)
    ensures StillRuns(code, a, j + k, n)
  {
    StepsAdd(code, a, j, k);
  }

  lemma LinkedBefore(code: Code, fn: nat, a: CG, b: CG)
    requires Linked(code, fn, b) && Prefixes(a.blocks, b.blocks)
    ensures Linked(code, fn, a)
  {
  }

  lemma LinkedSame(code: Code, fn: nat, a: CG, b: CG)
    requires Linked(code, fn, b) && a.blocks == b.blocks
    ensures Linked(code, fn, a)
  {
  }

  // ---- One instruction ----

  lemma Fetch(code: Code, fn: nat, cg: CG, i: Instr, st: State)
    requires Ok(cg) && Linked(code, fn, Emit(cg, i))
    requires st.Running? && st.top.fn == fn && AtEnd(cg, st.top)
    ensures Step(code, st) == Effect(i, st.top, st.rest, st.heap)
  {
    hide Effect;
    var e := Emit(cg, i);
    assert e.blocks[cg.cur] <= code[fn][cg.cur];
    assert code[fn][cg.cur][Here(cg)] == i;
  }

  lemma OneStep(code: Code, st: State, st': State)
    requires Step(code, st) == st'
    ensures Steps(code, st, 1) == st'
  {
    assert Steps(code, st', 0) == st';
  }

  lemma InvSetS(moved: set<Var>, temps: seq<Reg>, next: Reg, c: Ctx, f: Frame, h: Heap, env: Env,
                ext: multiset<Obj>, o: Obj)
    requires Inv(moved, temps, next, c, f, h, env, ext)
    ensures Inv(moved, temps, next + 1, c, SetS(f, next, o), h, env, ext)
    ensures SameFrame(f, SetS(f, next, o), next) && SameSlots(f, SetS(f, next, o))
  {
    TempRefsFrame(temps, f.sregs, SetS(f, next, o).sregs);
  }

  lemma InvSetI(moved: set<Var>, temps: seq<Reg>, next: Reg, c: Ctx, f: Frame, h: Heap, env: Env,
                ext: multiset<Obj>, n: int)
    requires Inv(moved, temps, next, c, f, h, env, ext)
    ensures Inv(moved, temps, next + 1, c, SetI(f, next, n), h, env, ext)
    ensures SameFrame(f, SetI(f, next, n), next) && SameSlots(f, SetI(f, next, n))
  {
  }

  lemma VarsKept(c: Ctx, moved: set<Var>, f: Frame, h: Heap, h': Heap, env: Env)
    requires VarsOk(c, moved, f, h, env) && Keeps(h, h')
    ensures VarsOk(c, moved, f, h', env)
  {
  }

  lemma SlotsFrame(c: Ctx, moved: set<Var>, f: Frame, g: Frame, h: Heap, env: Env, ext: multiset<Obj>)
    requires SameSlots(f, g)
    ensures VarsOk(c, moved, f, h, env) ==> VarsOk(c, moved, g, h, env)
    ensures BorrowsOk(c, f, ext) ==> BorrowsOk(c, g, ext)
  {
  }

  lemma PushTemp(temps: seq<Reg>, next: Reg, f: Frame, o: Obj)
    requires TempsOk(temps, next, f)
    ensures TempsOk(temps + [next], next + 1, SetS(f, next, o))
    ensures TempRefs(temps + [next], SetS(f, next, o).sregs) == TempRefs(temps, f.sregs) + multiset{o}
  {
    TempRefsFrame(temps, f.sregs, SetS(f, next, o).sregs);
    assert (temps + [next])[..|temps + [next]| - 1] == temps;
  }

  /** A new temporary that holds reference `o`. */
  lemma InvNewTemp(moved: set<Var>, temps: seq<Reg>, next: Reg, c: Ctx, f: Frame, h: Heap, h': Heap, env: Env,
                   ext: multiset<Obj>, o: Obj)
    requires Inv(moved, temps, next, c, f, h, env, ext) && Keeps(h, h')
    requires Owns(h', Held(c.owned, moved, temps, f) + ext + multiset{o}, c.exact)
    ensures Inv(moved, temps + [next], next + 1, c, SetS(f, next, o), h', env, ext)
    ensures SameFrame(f, SetS(f, next, o), next) && SameSlots(f, SetS(f, next, o))
  {
    hide Owns, VarsOk, BorrowsOk, Keeps, TempsOk, VarRefs, TempRefs, Distinct;
    var g := SetS(f, next, o);
    SlotsFrame(c, moved, f, g, h', env, ext);
    PushTemp(temps, next, f, o);
    assert Held(c.owned, moved, temps + [next], g) + ext == Held(c.owned, moved, temps, f) + ext + multiset{o};
    VarsKept(c, moved, f, h, h', env);
  }

  /** An instruction that only defines the next integer register. */
  lemma IntStep(code: Code, fn: nat, cg: CG, i: Instr, st: State, c: Ctx, env: Env, ext: multiset<Obj>, n: int)
    returns (st': State)
    requires Good(cg, c, st, env, ext) && st.top.fn == fn && Linked(code, fn, Emit(Fresh(cg), i))
    requires Effect(i, st.top, st.rest, st.heap) == Running(SetI(st.top, cg.next, n), st.rest, st.heap)
    ensures Arrives(code, st, 1, st', cg, Emit(Fresh(cg), i), c, env, ext)
    ensures cg.next in st'.top.iregs && st'.top.iregs[cg.next] == n && st'.top.bb == st.top.bb
  {
    hide Effect, Steps, Inv, Prefixes;
    Fetch(code, fn, Fresh(cg), i, st);
    st' := Running(SetI(st.top, cg.next, n), st.rest, st.heap);
    OneStep(code, st, st');
    InvSetI(cg.moved, cg.temps, cg.next, c, st.top, st.heap, env, ext, n);
  }

  /** A load of a readable string variable: a borrow, no reference is added. */
  lemma LoadStep(code: Code, fn: nat, cg: CG, x: Var, st: State, c: Ctx, env: Env, ext: multiset<Obj>)
    returns (st': State)
    requires Good(cg, c, st, env, ext) && st.top.fn == fn && x in st.top.svars
    requires Linked(code, fn, Emit(Fresh(cg), LoadStr(cg.next, x)))
    ensures Arrives(code, st, 1, st', cg, Emit(Fresh(cg), LoadStr(cg.next, x)), c, env, ext)
    ensures cg.next in st'.top.sregs && st'.top.sregs[cg.next] == st.top.svars[x] && st'.heap == st.heap
  {
    hide Steps, Inv, Prefixes;
    Fetch(code, fn, Fresh(cg), LoadStr(cg.next, x), st);
    st' := Running(SetS(st.top, cg.next, st.top.svars[x]), st.rest, st.heap);
    OneStep(code, st, st');
    InvSetS(cg.moved, cg.temps, cg.next, c, st.top, st.heap, env, ext, st.top.svars[x]);
  }

  /** An instruction that allocates a string; the result is a statement temporary. */
  lemma AllocStep(code: Code, fn: nat, cg: CG, i: Instr, t: string, st: State, c: Ctx, env: Env, ext: multiset<Obj>)
    returns (st': State)
    requires Good(cg, c, st, env, ext) && st.top.fn == fn && Linked(code, fn, EmitTemp(cg, i).0)
    requires Effect(i, st.top, st.rest, st.heap)
          == Running(SetS(st.top, cg.next, st.heap.next), st.rest, Alloc(st.heap, t))
    ensures Arrives(code, st, 1, st', cg, EmitTemp(cg, i).0, c, env, ext)
    ensures cg.next in st'.top.sregs && Denotes(st'.heap, st'.top.sregs[cg.next], Text(t))
  {
    hide Effect, Steps, Prefixes;
    Fetch(code, fn, Fresh(cg), i, st);
    st' := Running(SetS(st.top, cg.next, st.heap.next), st.rest, Alloc(st.heap, t));
    OneStep(code, st, st');
    AllocAdds(st.heap, Held(c.owned, cg.moved, cg.temps, st.top) + ext, c.exact, t);
    hide Owns, VarsOk, BorrowsOk;
    InvNewTemp(cg.moved, cg.temps, cg.next, c, st.top, st.heap, st'.heap, env, ext, st.heap.next);
  }

  // ---- Operands that hold a string ----

  /** Register `r` holds the value of `e`: a fresh temporary, or a borrow from variable `e.x`. */
  ghost predicate Carries(e: SExpr, r: Reg, temps: seq<Reg>, f: Frame) {
    && r in f.sregs
    && (if e.SVar? then e.x in f.svars && f.sregs[r] == f.svars[e.x] else r in temps)
  }

  /** An operand stays usable as long as its variable is not moved away. */
  lemma CarriedIsAlive(e: SExpr, r: Reg, moved: set<Var>, temps: seq<Reg>, next: Reg, c: Ctx, f: Frame,
                       h: Heap, env: Env, ext: multiset<Obj>)
    requires Inv(moved, temps, next, c, f, h, env, ext) && Carries(e, r, temps, f)
    requires e.SVar? ==> Readable(c, moved, e.x)
    ensures Usable(f, h, r)
  {
    hide VarsOk, Distinct;
    var o := f.sregs[r];
    if e.SVar? {
      if e.x in c.owned && e.x !in moved { VarIsHeld(c.owned, moved, f.svars, e.x); }
    } else {
      TempIsHeld(temps, f.sregs, r);
    }
    OwnedIsAlive(h, Held(c.owned, moved, temps, f) + ext, c.exact, o);
  }

  lemma DenotesContent(h: Heap, o: Obj, v: SVal)
    requires Denotes(h, o, v)
    ensures Content(h, o) == v
  {
  }

  lemma CarriesKept(e: SExpr, r: Reg, temps: seq<Reg>, temps': seq<Reg>, f: Frame, g: Frame, next: Reg)
    requires Carries(e, r, temps, f) && r < next && SameFrame(f, g, next) && SameSlots(f, g)
    requires temps <= temps'
    ensures Carries(e, r, temps', g) && g.sregs[r] == f.sregs[r]
  {
  }

  /** Releasing the first of some temporaries. */
  lemma InvDropTemp(moved: set<Var>, kept: seq<Reg>, r: Reg, rest: seq<Reg>, next: Reg, c: Ctx, f: Frame, h: Heap,
                    env: Env, ext: multiset<Obj>)
    requires Inv(moved, kept + ([r] + rest), next, c, f, h, env, ext)
    ensures r in f.sregs && Alive(h, f.sregs[r])
    ensures Inv(moved, kept + rest, next, c, f, Recount(h, f.sregs[r], -1), env, ext)
    ensures Keeps(h, Recount(h, f.sregs[r], -1))
  {
    var ts := kept + ([r] + rest);
    assert ts[|kept|] == r && r in ts;
    var o := f.sregs[r];
    SplitTemps(kept, r, rest, f.sregs);
    forall t | t in kept + rest ensures t in ts {}
    var refs := Held(c.owned, moved, kept + rest, f) + ext;
    assert Held(c.owned, moved, ts, f) + ext == refs + multiset{o};
    hide VarRefs, TempRefs, VarsOk, Distinct, BorrowsOk;
    ReleaseDrops(h, refs, c.exact, o);
    VarsKept(c, moved, f, h, Recount(h, o, -1), env);
  }

  lemma SplitTemps(kept: seq<Reg>, r: Reg, rest: seq<Reg>, sregs: map<Reg, Obj>)
    requires r in sregs
    ensures TempRefs(kept + ([r] + rest), sregs) == TempRefs(kept + rest, sregs) + multiset{sregs[r]}
  {
    TempRefsAppend(kept, [r] + rest, sregs);
    TempRefsAppend([r], rest, sregs);
    TempRefsAppend(kept, rest, sregs);
    assert TempRefs([r], sregs) == multiset{sregs[r]} by { assert [r][..0] == []; }
  }
}
