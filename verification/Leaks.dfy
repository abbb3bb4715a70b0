/**
 Accounts that do not add up: references forgotten without a release, or added without a retain,
 are harmless if and only if they are null. And a program whose jump forgets a string.
 */
module Leaks {
  import opened Source
  import opened Machine
  import opened Lowering
  import opened Ownership
  import opened Legality
  import opened Matching

  /** Every unmoved variable of `xs` holds null. */
  predicate AllNull(xs: seq<Var>, moved: set<Var>, svars: map<Var, Obj>) {
    forall x :: x in xs && x !in moved && x in svars ==> svars[x] == 0
  }

  lemma {:induction false} NullRefs(xs: seq<Var>, moved: set<Var>, svars: map<Var, Obj>)
    ensures AllNull(xs, moved, svars) <==> forall o :: o in VarRefs(xs, moved, svars) ==> o == 0
    decreases |xs|
  {
    if xs != [] {
      var init, last := xs[..|xs| - 1], xs[|xs| - 1];
      NullRefs(init, moved, svars);
      assert forall x :: x in xs <==> x in init || x == last;
      if last !in moved && last in svars { assert svars[last] in VarRefs(xs, moved, svars); }
      assert forall o :: o in VarRefs(init, moved, svars) ==> o in VarRefs(xs, moved, svars);
    }
  }

  /** References that are forgotten without a release. */
  lemma Forgotten(h: Heap, refs: multiset<Obj>, lost: multiset<Obj>)
    requires Owns(h, refs + lost, true)
    ensures Owns(h, refs, true) <==> forall o :: o in lost ==> o == 0
  {
    forall o ensures (refs + lost)[o] == refs[o] + lost[o] {}
    forall o | o in lost && o != 0 ensures !Owns(h, refs, true) {
      assert o in refs + lost;
      assert h.cells[o].count != refs[o];
    }
    if forall o :: o in lost ==> o == 0 {
      forall o | o in h.cells ensures h.cells[o].count == refs[o] { assert lost[o] == 0; }
      forall o | o in refs && o != 0 ensures o in h.cells { assert o in refs + lost; }
    }
  }

  /** A jump from the scopes of `outer + inner` to those of `outer`, which releases nothing. */
  lemma JumpRefs(outer: seq<Var>, inner: seq<Var>, moved: set<Var>, f: Frame, h: Heap, ext: multiset<Obj>)
    requires Owns(h, Held(outer + inner, moved, [], f) + ext, true)
    ensures Owns(h, Held(outer, moved, [], f) + ext, true) <==> AllNull(inner, moved, f.svars)
  {
    hide Owns;
    VarRefsAppend(outer, inner, moved, f.svars);
    NullRefs(inner, moved, f.svars);
    var lost := VarRefs(inner, moved, f.svars);
    assert Held(outer + inner, moved, [], f) + ext == Held(outer, moved, [], f) + ext + lost;
    Forgotten(h, Held(outer, moved, [], f) + ext, lost);
  }

  /** The end of a body: the caller's references are all that is left. */
  lemma EndRefs(owned: seq<Var>, moved: set<Var>, f: Frame, h: Heap, ext: multiset<Obj>)
    requires Owns(h, Held(owned, moved, [], f) + ext, true)
    ensures Owns(h, ext, true) <==> AllNull(owned, moved, f.svars)
  {
    hide Owns;
    assert [] + owned == owned;
    assert Held([], moved, [], f) + ext == ext;
    JumpRefs([], owned, moved, f, h, ext);
  }

  /** Where branches meet: what the other branch moved counts as moved, but is still here. */
  lemma MergeRefs(owned: seq<Var>, moved: set<Var>, merged: set<Var>, f: Frame, h: Heap, ext: multiset<Obj>)
    requires Owns(h, Held(owned, moved, [], f) + ext, true) && moved <= merged
    ensures Owns(h, Held(owned, merged, [], f) + ext, true)
       <==> forall x :: x in owned && x in merged && x !in moved && x in f.svars ==> f.svars[x] == 0
  {
    hide Owns;
    var rest := (set x | x in owned && (x in moved || x !in merged));
    Split(owned, moved, merged, rest, f.svars);
    NullRefs(owned, rest, f.svars);
    var lost := VarRefs(owned, rest, f.svars);
    assert Held(owned, moved, [], f) + ext == Held(owned, merged, [], f) + ext + lost;
    Forgotten(h, Held(owned, merged, [], f) + ext, lost);
  }

  lemma {:induction false} Split(xs: seq<Var>, moved: set<Var>, merged: set<Var>, rest: set<Var>, svars: map<Var, Obj>)
    requires moved <= merged && forall x :: x in xs ==> (x in rest <==> x in moved || x !in merged)
    ensures VarRefs(xs, moved, svars) == VarRefs(xs, merged, svars) + VarRefs(xs, rest, svars)
    decreases |xs|
  {
    if xs != [] { Split(xs[..|xs| - 1], moved, merged, rest, svars); }
  }

  // ---- References nobody counted ----

  /** References that are added without a retain. */
  lemma Uncounted(h: Heap, refs: multiset<Obj>, extra: multiset<Obj>, exact: bool)
    requires Owns(h, refs, true)
    ensures Owns(h, refs + extra, exact) <==> forall o :: o in extra ==> o == 0
  {
    forall o ensures (refs + extra)[o] == refs[o] + extra[o] {}
    forall o | o in extra && o != 0 ensures !Owns(h, refs + extra, exact) {
      assert o in refs + extra;
      assert o in h.cells ==> h.cells[o].count < (refs + extra)[o];
    }
    if forall o :: o in extra ==> o == 0 {
      forall o | o in h.cells ensures h.cells[o].count == (refs + extra)[o] { assert extra[o] == 0; }
      forall o | o in refs + extra && o != 0 ensures o in h.cells { assert o in refs; }
    }
  }

  // ---- A jump that leaks ----

  const S := Var(0, false)

  /** for { string s = "a"; break; } */
  const BREAKING: Program := [Fun([], [Forever([DeclStr(S, Lit("a")), Break])])]

  const BREAKING_CODE: seq<seq<Instr>> := [[Br(1)], [CreateStatic(0, "a"), StoreStr(S, 0), Br(2)], [RetNull]]

  /** In the loop body, with `code` emitted there. */
  function In(code: seq<Instr>, next: Reg, scope: seq<Var>, temps: seq<Reg>): CG {
    CG([[Br(1)], code, []], 1, next, [[], [], scope], temps, {}, InLoop(1, 2, NoLoop))
  }

  lemma Emitted(code: seq<Instr>, next: Reg, scope: seq<Var>, temps: seq<Reg>, i: Instr)
    ensures Emit(In(code, next, scope, temps), i) == In(code + [i], next, scope, temps)
  {
  }

  lemma Declared()
    ensures GenDecl(BREAKING, S, Lit("a"), In([], 0, [], [])) == In([CreateStatic(0, "a"), StoreStr(S, 0)], 1, [S], [])
  {
    hide Emit;
    var c0 := Declare(In([], 0, [], []), S);
    assert [] + [S] == [S];
    assert c0.scopes == [[], [], [S]];
    assert c0 == In([], 0, [S], []);
    Emitted([], 1, [S], [], CreateStatic(0, "a"));
    Emitted([CreateStatic(0, "a")], 1, [S], [0], StoreStr(S, 0));
    var (c1, a) := GenS(BREAKING, Lit("a"), c0);
    assert [] + [CreateStatic(0, "a")] == [CreateStatic(0, "a")];
    assert c1 == In([CreateStatic(0, "a")], 1, [S], [0]) && a == 0;
    assert [CreateStatic(0, "a")] + [StoreStr(S, 0)] == [CreateStatic(0, "a"), StoreStr(S, 0)];
    assert Without([0], 0) == [];
  }

  lemma FirstOf(ss: seq<Stmt>, cg: CG)
    requires Ok(cg) && cg.scopes != [] && ss != [] && !Terminated(cg)
    ensures GenStmts(BREAKING, ss, cg) == GenStmts(BREAKING, ss[1..], ReleaseTemps(GenStmt(BREAKING, ss[0], cg)))
  {
    hide GenStmt, ReleaseTemps;
  }

  /** One statement of the body, after which nothing is pending. */
  lemma Next(ss: seq<Stmt>, s: Stmt, c0: CG, c1: CG)
    requires Ok(c0) && c0.scopes != [] && ss != [] && ss[0] == s && !Terminated(c0)
    requires GenStmt(BREAKING, s, c0) == c1 && c1.temps == []
    ensures GenStmts(BREAKING, ss, c0) == GenStmts(BREAKING, ss[1..], c1)
  {
    hide GenStmt, GenStmts, Follows;
    FirstOf(ss, c0);
    Quiet(c1);
  }

  lemma Quiet(cg: CG)
    requires Ok(cg) && cg.temps == []
    ensures ReleaseTemps(cg) == cg
  {
  }

  lemma Jumped()
    ensures GenStmt(BREAKING, Break, In([CreateStatic(0, "a"), StoreStr(S, 0)], 1, [S], []))
         == In([CreateStatic(0, "a"), StoreStr(S, 0), Br(2)], 1, [S], [])
  {
    Emitted([CreateStatic(0, "a"), StoreStr(S, 0)], 1, [S], [], Br(2));
    assert [CreateStatic(0, "a"), StoreStr(S, 0)] + [Br(2)] == [CreateStatic(0, "a"), StoreStr(S, 0), Br(2)];
  }

  lemma Body()
    ensures GenStmts(BREAKING, [DeclStr(S, Lit("a")), Break], In([], 0, [], []))
         == In([CreateStatic(0, "a"), StoreStr(S, 0), Br(2)], 1, [S], [])
  {
    hide GenStmts, GenDecl, GenBreak, Follows;
    var ss := [DeclStr(S, Lit("a")), Break];
    var c0 := In([], 0, [], []);
    var c1 := In([CreateStatic(0, "a"), StoreStr(S, 0)], 1, [S], []);
    var c2 := In([CreateStatic(0, "a"), StoreStr(S, 0), Br(2)], 1, [S], []);
    Declared();
    Next(ss, DeclStr(S, Lit("a")), c0, c1);
    Jumped();
    assert ss[1..] == [Break] && [Break][1..] == [];
    Next([Break], Break, c1, c2);
    Finished(c2);
  }

  lemma Finished(cg: CG)
    requires Ok(cg) && cg.scopes != []
    ensures GenStmts(BREAKING, [], cg) == cg
  {
  }

  lemma Entered(c0: CG)
    requires c0 == CG([[]], 0, 0, [[], []], [], {}, NoLoop)
    ensures PushScope(EnterForever(c0)) == In([], 0, [], [])
  {
    var c1 := AddBlocks(c0, 2);
    assert c1.blocks == [[], [], []];
    assert [] + [Br(1)] == [Br(1)];
    assert Emit(c1, Br(1)).blocks == [[Br(1)], [], []];
    assert [[], []] + [[]] == In([], 0, [], []).scopes;
  }

  lemma Looped(c0: CG)
    requires c0 == CG([[]], 0, 0, [[], []], [], {}, NoLoop)
    ensures GenForever(BREAKING, BREAKING[0].body[0], c0) == CG([[Br(1)], BREAKING_CODE[1], []], 2, 1, [[], []], [], {}, NoLoop)
  {
    hide GenStmts;
    Entered(c0);
    Body();
    var body := [DeclStr(S, Lit("a")), Break];
    var c1 := GenBlock(BREAKING, body, EnterForever(c0));
    assert c1 == CG([[Br(1)], BREAKING_CODE[1], []], 1, 1, [[], []], [], {}, InLoop(1, 2, NoLoop));
  }

  lemma Generated()
    ensures GenBody(BREAKING, BREAKING[0]) == CG([[Br(1)], BREAKING_CODE[1], []], 2, 1, [[]], [], {}, NoLoop)
  {
    hide GenStmts, GenForever;
    var c0 := CG([[]], 0, 0, [[], []], [], {}, NoLoop);
    var c2 := CG([[Br(1)], BREAKING_CODE[1], []], 2, 1, [[], []], [], {}, NoLoop);
    var loop := BREAKING[0].body[0];
    assert PushScope(Prologue(BREAKING[0])) == c0;
    Looped(c0);
    assert GenStmt(BREAKING, loop, c0) == c2;
    assert [loop][1..] == [];
    Next([loop], loop, c0, c2);
    Finished(c2);
    assert GenStmts(BREAKING, BREAKING[0].body, c0) == c2;
    assert ReleaseVars(c2, []) == c2;
  }

  lemma Compiled()
    ensures Compile(BREAKING) == [BREAKING_CODE]
  {
    hide GenBody;
    Generated();
    var c := GenBody(BREAKING, BREAKING[0]);
    assert [] + [RetNull] == [RetNull];
    assert Emit(c, RetNull).blocks == BREAKING_CODE;
    assert GenFunction(BREAKING, BREAKING[0]) == Emit(c, RetNull);
    assert Compile(BREAKING)[0] == BREAKING_CODE;
  }

  function Point(bb: nat, pc: nat, prev: nat, sregs: map<Reg, Obj>, svars: map<Var, Obj>, heap: Heap): State {
    Running(Frame(0, bb, pc, prev, 0, [], sregs, map[], svars, map[]), [], heap)
  }

  lemma Declares(code: Code, h0: Heap, h1: Heap)
    requires code == [BREAKING_CODE] && h0 == Heap(map[], 1) && h1 == Heap(map[1 := Cell(1, "a")], 2)
    ensures Steps(code, Point(0, 0, 0, map[], map[], h0), 3) == Point(1, 2, 0, map[0 := 1], map[S := 1], h1)
  {
    var s0 := Point(0, 0, 0, map[], map[], h0);
    var s1 := Point(1, 0, 0, map[], map[], h0);
    var s2 := Point(1, 1, 0, map[0 := 1], map[], h1);
    assert Step(code, s0) == s1;
    assert Step(code, s1) == s2;
    assert Steps(code, s2, 1) == Step(code, s2);
    assert Steps(code, s0, 3) == Steps(code, s1, 2) == Steps(code, s2, 1);
  }

  lemma Breaks(code: Code, h1: Heap)
    requires code == [BREAKING_CODE]
    ensures Steps(code, Point(1, 2, 0, map[0 := 1], map[S := 1], h1), 2) == Halted(0, h1)
  {
    var s3 := Point(1, 2, 0, map[0 := 1], map[S := 1], h1);
    var s4 := Point(2, 0, 1, map[0 := 1], map[S := 1], h1);
    assert Step(code, s3) == s4;
    assert Steps(code, s3, 2) == Steps(code, s4, 1) == Step(code, s4);
  }

  /** The call returns, and the string declared in the loop still has its count. */
  lemma BreakLeaks()
    ensures Steps(Compile(BREAKING), Point(0, 0, 0, map[], map[], Heap(map[], 1)), 5)
         == Halted(0, Heap(map[1 := Cell(1, "a")], 2))
  {
    hide Compile, Steps;
    Compiled();
    var code := [BREAKING_CODE];
    var h0, h1 := Heap(map[], 1), Heap(map[1 := Cell(1, "a")], 2);
    Declares(code, h0, h1);
    Breaks(code, h1);
    StepsAdd(code, Point(0, 0, 0, map[], map[], h0), 3, 2);
  }
}
