/**
 Small programs outside the legal fragment, whose emitted code uses or releases a string that was
 released before. Module Hazards has the conditions in general.
 */
module StuckPrograms {
  import opened Source
  import opened Machine
  import opened Lowering
  import opened Ownership
  import opened Matching

  // ---- Straight-line code ----

  /** The state of the code generator in a function with one block. */
  function Line(code: seq<Instr>, next: Reg, scopes: seq<seq<Var>>, temps: seq<Reg>, moved: set<Var>): (c: CG)
    ensures Ok(c) && c.blocks == [code]
  {
    CG([code], 0, next, scopes, temps, moved, NoLoop)
  }

  predicate Open(code: seq<Instr>) {
    code == [] || !code[|code| - 1].IsTerminator()
  }

  lemma EmitLine(code: seq<Instr>, next: Reg, scopes: seq<seq<Var>>, temps: seq<Reg>, moved: set<Var>, i: Instr)
    ensures Emit(Line(code, next, scopes, temps, moved), i) == Line(code + [i], next, scopes, temps, moved)
    ensures EmitTemp(Line(code, next, scopes, temps, moved), i)
         == (Line(code + [i], next + 1, scopes, temps + [next], moved), next)
    ensures Fresh(Line(code, next, scopes, temps, moved)) == Line(code, next + 1, scopes, temps, moved)
  {
  }

  lemma ReadLine(p: Program, x: Var, code: seq<Instr>, next: Reg, scopes: seq<seq<Var>>, temps: seq<Reg>, moved: set<Var>)
    ensures GenS(p, SVar(x), Line(code, next, scopes, temps, moved))
         == (Line(code + [LoadStr(next, x)], next + 1, scopes, temps, moved), next)
  {
    hide Emit, Fresh;
    EmitLine(code, next, scopes, temps, moved, LoadStr(next, x));
    EmitLine(code, next + 1, scopes, temps, moved, LoadStr(next, x));
  }

  lemma LitLine(p: Program, t: string, code: seq<Instr>, next: Reg, scopes: seq<seq<Var>>, temps: seq<Reg>, moved: set<Var>)
    ensures GenS(p, Lit(t), Line(code, next, scopes, temps, moved))
         == (Line(code + [CreateStatic(next, t)], next + 1, scopes, temps + [next], moved), next)
  {
    hide EmitTemp;
    EmitLine(code, next, scopes, temps, moved, CreateStatic(next, t));
  }

  /** A call with one variable, which it moves if both sides own it. */
  lemma CallLine(p: Program, f: nat, x: Var, code: seq<Instr>, next: Reg, scopes: seq<seq<Var>>, temps: seq<Reg>,
                 moved: set<Var>)
    requires f < |p| && |p[f].params| == 1
    ensures
      var moves := if p[f].params[0].own && x.own then {x} else {};
      GenS(p, Call(f, [SVar(x)]), Line(code, next, scopes, temps, moved))
      == (Line(code + [LoadStr(next, x)] + [CallFn(next + 1, f, [next])], next + 2, scopes, temps + [next + 1], moved + moves),
          next + 1)
  {
    hide Emit, Fresh, EmitTemp;
    var c := Line(code, next, scopes, temps, moved);
    var moves := if p[f].params[0].own && x.own then {x} else {};
    ReadLine(p, x, code, next, scopes, temps, moved);
    OneArgument(p, x, c);
    OneMove(x, p[f].params);
    EmitLine(code + [LoadStr(next, x)], next + 1, scopes, temps, moved + moves, CallFn(next + 1, f, [next]));
  }

  lemma OneArgument(p: Program, x: Var, c: CG)
    requires Ok(c)
    ensures GenArgs(p, [SVar(x)], c) == (GenS(p, SVar(x), c).0, [GenS(p, SVar(x), c).1])
  {
    hide GenS;
    assert [SVar(x)][..0] == [];
    assert GenArgs(p, [], c) == (c, []);
    assert [] + [GenS(p, SVar(x), c).1] == [GenS(p, SVar(x), c).1];
  }

  lemma OneMove(x: Var, params: seq<Var>)
    requires |params| == 1
    ensures OwnMoves([SVar(x)], params) == if params[0].own && x.own then {x} else {}
  {
    assert [SVar(x)][1..] == [] && params[1..] == [];
  }

  /** `string x = "t";` */
  lemma DeclLine(p: Program, x: Var, t: string, code: seq<Instr>, next: Reg, scopes: seq<seq<Var>>, scope: seq<Var>,
                 moved: set<Var>)
    ensures GenStmt(p, DeclStr(x, Lit(t)), Line(code, next, scopes + [scope], [], moved))
         == Line(code + [CreateStatic(next, t)] + [StoreStr(x, next)], next + 1, scopes + [scope + [x]], [], moved)
  {
    hide GenS, Emit;
    var c0 := Declare(Line(code, next, scopes + [scope], [], moved), x);
    assert c0.scopes == scopes + [scope + [x]];
    LitLine(p, t, code, next, c0.scopes, [], moved);
    var c1 := GenS(p, Lit(t), c0).0;
    EmitLine(code + [CreateStatic(next, t)], next + 1, c0.scopes, [] + [next], moved, StoreStr(x, next));
    assert Without([] + [next], next) == [];
  }

  lemma FlushLine(code: seq<Instr>, next: Reg, scopes: seq<seq<Var>>, temps: seq<Reg>, moved: set<Var>)
    requires Open(code)
    ensures temps == [] ==> ReleaseTemps(Line(code, next, scopes, temps, moved)) == Line(code, next, scopes, [], moved)
    ensures |temps| == 1 ==>
      ReleaseTemps(Line(code, next, scopes, temps, moved)) == Line(code + [StringRelease(temps[0])], next, scopes, [], moved)
  {
    hide Emit;
    var c := Line(code, next, scopes, temps, moved);
    assert temps[0..] == temps && temps[..0] == [];
    if |temps| == 1 {
      EmitLine(code, next, scopes, temps, moved, StringRelease(temps[0]));
      assert temps[1..] == [];
      assert EmitReleases(c, temps) == Line(code + [StringRelease(temps[0])], next, scopes, temps, moved);
    }
  }

  /** The first of some variables to be released. */
  lemma ReleaseLine(code: seq<Instr>, next: Reg, scopes: seq<seq<Var>>, moved: set<Var>, x: Var, rest: seq<Var>)
    requires x !in moved
    ensures ReleaseVars(Line(code, next, scopes, [], moved), [x] + rest)
         == ReleaseVars(Line(code + [LoadStr(next, x)] + [StringRelease(next)], next + 1, scopes, [], moved), rest)
    ensures ReleaseVars(Line(code, next, scopes, [], moved), []) == Line(code, next, scopes, [], moved)
  {
    hide Emit, Fresh;
    EmitLine(code, next, scopes, [], moved, LoadStr(next, x));
    EmitLine(code, next + 1, scopes, [], moved, LoadStr(next, x));
    EmitLine(code + [LoadStr(next, x)], next + 1, scopes, [], moved, StringRelease(next));
    assert ([x] + rest)[1..] == rest;
  }

  // ---- From a statement to the code of its function ----

  /** The statements of a body, one at a time. */
  lemma NextStmt(code: Code, fn: nat, p: Program, ss: seq<Stmt>, c: CG)
    requires Ok(c) && c.scopes != [] && ss != [] && !Terminated(c) && Linked(code, fn, GenStmts(p, ss, c))
    ensures Linked(code, fn, GenStmt(p, ss[0], c))
    ensures Linked(code, fn, GenStmts(p, ss[1..], ReleaseTemps(GenStmt(p, ss[0], c))))
  {
    hide GenStmt;
    var c1 := GenStmt(p, ss[0], c);
    LinkedBefore(code, fn, ReleaseTemps(c1), GenStmts(p, ss, c));
    LinkedBefore(code, fn, c1, ReleaseTemps(c1));
  }

  /** The body of function `f` in the code of its program. */
  lemma BodyLinked(p: Program, fn: nat)
    requires fn < |p|
    ensures Linked(Compile(p), fn, GenStmts(p, p[fn].body, PushScope(Prologue(p[fn]))))
  {
    hide GenStmts, Prologue, GenBlock, ReleaseVars;
    var f := p[fn];
    var c1 := GenStmts(p, f.body, PushScope(Prologue(f)));
    BlockCode(p, f.body, Prologue(f));
    assert Prefixes(GenBody(p, f).blocks, GenFunction(p, f).blocks);
    LinkedBefore(Compile(p), fn, GenBody(p, f), GenFunction(p, f));
    LinkedBefore(Compile(p), fn, c1, GenBody(p, f));
  }

  lemma BlockCode(p: Program, ss: seq<Stmt>, cg: CG)
    requires Ok(cg)
    ensures Prefixes(GenStmts(p, ss, PushScope(cg)).blocks, GenBlock(p, ss, cg).blocks)
  {
    hide GenStmts, ReleaseVars;
  }

  /** Function `fn` starts with the given code. */
  ghost predicate Starts(code: Code, fn: nat, line: seq<Instr>) {
    fn < |code| && code[fn] != [] && line <= code[fn][0]
  }

  lemma LineStarts(code: Code, fn: nat, c: CG, line: seq<Instr>)
    requires Ok(c) && Linked(code, fn, c) && c.blocks == [line]
    ensures Starts(code, fn, line)
  {
    assert c.blocks[0] <= code[fn][0];
  }

  /** Block `b` of function `fn` starts with the given code. */
  ghost predicate BlockStarts(code: Code, fn: nat, b: nat, line: seq<Instr>) {
    fn < |code| && b < |code[fn]| && line <= code[fn][b]
  }

  lemma StepBlock(code: Code, fn: nat, b: nat, line: seq<Instr>, st: State)
    requires BlockStarts(code, fn, b, line) && st.Running? && st.top.fn == fn && st.top.bb == b && st.top.pc < |line|
    ensures Step(code, st) == Effect(line[st.top.pc], st.top, st.rest, st.heap)
  {
    hide Effect;
  }

  lemma StepLine(code: Code, fn: nat, line: seq<Instr>, st: State)
    requires Starts(code, fn, line) && st.Running? && st.top.fn == fn && st.top.bb == 0 && st.top.pc < |line|
    ensures Step(code, st) == Effect(line[st.top.pc], st.top, st.rest, st.heap)
  {
    hide Effect;
  }

  // ---- A callee that takes a string ----

  const P := Var(0, true)

  /** fn take(own string p) -> string { return "r"; } */
  const TAKE := Fun([P], [Return(Lit("r"))])

  const TAKE_CODE: seq<Instr> := [
    StoreArg(P, 0), CreateStatic(0, "r"), StringRetain(0), StringRelease(0), LoadStr(1, P), StringRelease(1), Machine.Ret(0)]

  lemma TakeCode(p: Program)
    requires |p| > 0 && p[0] == TAKE
    ensures Starts(Compile(p), 0, TAKE_CODE)
  {
    hide Compile, GenStmts, GenStmt, ReleaseTemps;
    var code := Compile(p);
    BodyLinked(p, 0);
    TakePrologue();
    var c0 := Line([StoreArg(P, 0)], 0, [[P], []], [], {});
    NextStmt(code, 0, p, TAKE.body, c0);
    TakeReturn(p);
    LineStarts(code, 0, GenStmt(p, Return(Lit("r")), c0), TAKE_CODE);
  }

  lemma TakePrologue()
    ensures PushScope(Prologue(TAKE)) == Line([StoreArg(P, 0)], 0, [[P], []], [], {})
  {
    hide Emit;
    assert [P][1..] == [] && [] + [StoreArg(P, 0)] == [StoreArg(P, 0)];
    EmitLine([], 0, [], [], {}, StoreArg(P, 0));
    assert EMPTY == Line([], 0, [], [], {});
    assert StoreArgs(EMPTY, [P], 0) == Emit(EMPTY, StoreArg(P, 0));
    assert OwnParams([P]) == [P];
    assert [[P]] + [[]] == [[P], []];
  }

  lemma TakeReturn(p: Program)
    ensures GenStmt(p, Return(Lit("r")), Line([StoreArg(P, 0)], 0, [[P], []], [], {})).blocks == [TAKE_CODE]
  {
    hide Emit, ReleaseVars, ReleaseOrder, GenStmt;
    ReturnLine(p, "r", [StoreArg(P, 0)], [[P], []]);
    assert [StoreArg(P, 0)] + [CreateStatic(0, "r")] + [StringRetain(0)] + [StringRelease(0)] == TAKE_CODE[..4];
    TakeOrder();
    ReleaseLine(TAKE_CODE[..4], 1, [[P], []], {}, P, []);
    ReleaseLine(TAKE_CODE[..6], 2, [[P], []], {}, P, []);
    assert [P] + [] == [P];
    assert TAKE_CODE[..4] + [LoadStr(1, P)] + [StringRelease(1)] == TAKE_CODE[..6];
    EmitLine(TAKE_CODE[..6], 2, [[P], []], [], {}, Machine.Ret(0));
    assert TAKE_CODE[..6] + [Machine.Ret(0)] == TAKE_CODE;
  }

  /** return "t"; */
  lemma ReturnLine(p: Program, t: string, code: seq<Instr>, scopes: seq<seq<Var>>)
    requires scopes != []
    ensures
      var out := code + [CreateStatic(0, t)] + [StringRetain(0)] + [StringRelease(0)];
      GenStmt(p, Return(Lit(t)), Line(code, 0, scopes, [], {}))
      == Emit(ReleaseVars(Line(out, 1, scopes, [], {}), ReleaseOrder(scopes)), Machine.Ret(0))
  {
    hide Emit, ReleaseTemps, Fresh, ReleaseOrder, ReleaseVars, GenS, GenStmt;
    ReturnIs(p, Lit(t), Line(code, 0, scopes, [], {}));
    LitLine(p, t, code, 0, scopes, [], {});
    var code1 := code + [CreateStatic(0, t)];
    assert [] + [0] == [0];
    EmitLine(code1, 1, scopes, [0], {}, StringRetain(0));
    FlushLine(code1 + [StringRetain(0)], 1, scopes, [0], {});
  }

  lemma TakeOrder()
    ensures ReleaseOrder([[P], []]) == [P]
  {
    assert [[P], []][..1] == [[P]] && [[P]][..0] == [];
    assert ReleaseOrder([[P]]) == [P] + ReleaseOrder([]);
  }

  lemma ReturnIs(p: Program, e: SExpr, c: CG)
    requires Ok(c) && c.scopes != []
    ensures
      var (c1, a) := GenS(p, e, c);
      var c2 := ReleaseTemps(Emit(c1, StringRetain(a)));
      GenStmt(p, Return(e), c) == Emit(ReleaseVars(c2, ReleaseOrder(c2.scopes)), Machine.Ret(a))
  {
    hide GenS, Emit, ReleaseTemps, ReleaseVars, ReleaseOrder;
    assert GenStmt(p, Return(e), c) == GenReturn(p, e, c);
  }

  function Top(fn: nat, pc: nat, dst: Reg, args: seq<Obj>, sregs: map<Reg, Obj>, svars: map<Var, Obj>): Frame {
    Frame(fn, 0, pc, 0, dst, args, sregs, map[], svars, map[])
  }

  /** A call of `take` with string `o`: it returns a new string and releases `o`, or is stuck doing so. */
  lemma RunTake(code: Code, dst: Reg, o: Obj, rest: seq<Frame>, h: Heap)
    requires Starts(code, 0, TAKE_CODE) && h.next !in h.cells && h.next > 0 && o != 0 && o in h.cells
    ensures Steps(code, Running(Entry(0, dst, [o]), rest, h), 7)
         == if Alive(h, o) then PopFrame(rest, dst, h.next, Recount(Alloc(h, "r"), o, -1)) else Stuck
  {
    hide Steps, Alive;
    TakeBegins(code, dst, o, rest, h);
    TakeEnds(code, dst, o, rest, h);
    StepsAdd(code, Running(Entry(0, dst, [o]), rest, h), 4, 3);
  }

  lemma TakeBegins(code: Code, dst: Reg, o: Obj, rest: seq<Frame>, h: Heap)
    requires Starts(code, 0, TAKE_CODE) && h.next !in h.cells && h.next > 0
    ensures Steps(code, Running(Entry(0, dst, [o]), rest, h), 4)
         == Running(Top(0, 4, dst, [o], map[0 := h.next], map[P := o]), rest, Alloc(h, "r"))
  {
    hide Starts, Step;
    var h1 := Alloc(h, "r");
    var h2 := Recount(h1, h.next, 1);
    var s0 := Running(Entry(0, dst, [o]), rest, h);
    var s1 := Running(Top(0, 1, dst, [o], map[], map[P := o]), rest, h);
    var s2 := Running(Top(0, 2, dst, [o], map[0 := h.next], map[P := o]), rest, h1);
    var s3 := Running(Top(0, 3, dst, [o], map[0 := h.next], map[P := o]), rest, h2);
    var s4 := Running(Top(0, 4, dst, [o], map[0 := h.next], map[P := o]), rest, h1);
    StepLine(code, 0, TAKE_CODE, s0);
    StepLine(code, 0, TAKE_CODE, s1);
    StepLine(code, 0, TAKE_CODE, s2);
    StepLine(code, 0, TAKE_CODE, s3);
    assert Recount(h2, h.next, -1).cells == h1.cells;
    FourSteps(code, s0, s1, s2, s3, s4);
  }

  lemma FourSteps(code: Code, s0: State, s1: State, s2: State, s3: State, s4: State)
    requires Step(code, s0) == s1 && Step(code, s1) == s2 && Step(code, s2) == s3 && Step(code, s3) == s4
    ensures Steps(code, s0, 4) == s4
  {
    hide Step;
    assert Steps(code, s0, 4) == Steps(code, s1, 3) == Steps(code, s2, 2) == Steps(code, s3, 1) == Steps(code, s4, 0);
  }

  lemma TakeEnds(code: Code, dst: Reg, o: Obj, rest: seq<Frame>, h: Heap)
    requires Starts(code, 0, TAKE_CODE) && h.next !in h.cells && h.next > 0 && o != 0 && o in h.cells
    ensures Steps(code, Running(Top(0, 4, dst, [o], map[0 := h.next], map[P := o]), rest, Alloc(h, "r")), 3)
         == if Alive(h, o) then PopFrame(rest, dst, h.next, Recount(Alloc(h, "r"), o, -1)) else Stuck
  {
    hide Starts, Step;
    var h1 := Alloc(h, "r");
    var s4 := Running(Top(0, 4, dst, [o], map[0 := h.next], map[P := o]), rest, h1);
    var s5 := Running(Top(0, 5, dst, [o], map[0 := h.next, 1 := o], map[P := o]), rest, h1);
    StepLine(code, 0, TAKE_CODE, s4);
    StepLine(code, 0, TAKE_CODE, s5);
    if Alive(h, o) {
      var s6 := Running(Top(0, 6, dst, [o], map[0 := h.next, 1 := o], map[P := o]), rest, Recount(h1, o, -1));
      StepLine(code, 0, TAKE_CODE, s6);
      ThreeSteps(code, s4, s5, s6, PopFrame(rest, dst, h.next, Recount(h1, o, -1)));
    } else {
      assert Step(code, Stuck) == Stuck by { Stays(code); }
      ThreeSteps(code, s4, s5, Stuck, Stuck);
    }
  }

  lemma Stays(code: Code)
    ensures Step(code, Stuck) == Stuck
  {
  }

  lemma ThreeSteps(code: Code, s0: State, s1: State, s2: State, s3: State)
    requires Step(code, s0) == s1 && Step(code, s1) == s2 && Step(code, s2) == s3
    ensures Steps(code, s0, 3) == s3
  {
    hide Step;
    assert Steps(code, s0, 3) == Steps(code, s1, 2) == Steps(code, s2, 1) == Steps(code, s3, 0);
  }

  // ---- Read, then moved: own string a = "a"; a + take(a); ----

  const A := Var(1, true)
  const H1 := Heap(map[1 := Cell(1, "a")], 2)

  const READ: Program := [TAKE, Fun([], [DeclStr(A, Lit("a")), Eval(Concat(SVar(A), Call(0, [SVar(A)])))])]
  const READ_CODE: seq<Instr> := [
    CreateStatic(0, "a"), StoreStr(A, 0), LoadStr(1, A), LoadStr(2, A), CallFn(3, 0, [2]), ConcatStr(4, 1, 3)]

  lemma MainDeclares(p: Program)
    ensures
      var c1 := Line([CreateStatic(0, "a"), StoreStr(A, 0)], 1, [[], [A]], [], {});
      ReleaseTemps(GenStmt(p, DeclStr(A, Lit("a")), Line([], 0, [[], []], [], {}))) == c1
  {
    hide GenStmt, ReleaseTemps;
    DeclLine(p, A, "a", [], 0, [[]], [], {});
    var none: seq<Var> := [];
    assert [none] + [none] == [none, none] && none + [A] == [A] && [none] + [[A]] == [none, [A]];
    assert [] + [CreateStatic(0, "a")] + [StoreStr(A, 0)] == [CreateStatic(0, "a"), StoreStr(A, 0)];
    FlushLine([CreateStatic(0, "a"), StoreStr(A, 0)], 1, [[], [A]], [], {});
  }

  /** Most programs here begin with the declaration of `a`. */
  lemma MainBegins(p: Program, rest: seq<Stmt>)
    requires |p| > 1 && p[1] == Fun([], [DeclStr(A, Lit("a"))] + rest)
    ensures
      var c1 := Line([CreateStatic(0, "a"), StoreStr(A, 0)], 1, [[], [A]], [], {});
      Linked(Compile(p), 1, GenStmts(p, rest, c1))
  {
    hide Compile, GenStmts, GenStmt, ReleaseTemps;
    BodyLinked(p, 1);
    MainPrologue(p[1]);
    NextStmt(Compile(p), 1, p, p[1].body, Line([], 0, [[], []], [], {}));
    MainDeclares(p);
    assert p[1].body[1..] == rest;
  }

  lemma MainPrologue(f: Fun)
    requires f.params == []
    ensures PushScope(Prologue(f)) == Line([], 0, [[], []], [], {})
  {
    var none: seq<Var> := [];
    assert [none] + [none] == [none, none];
  }

  lemma ReadCode()
    ensures Starts(Compile(READ), 1, READ_CODE)
  {
    hide Compile, GenStmts, GenStmt, ReleaseTemps;
    var rest := [Eval(Concat(SVar(A), Call(0, [SVar(A)])))];
    assert READ[1].body == [DeclStr(A, Lit("a"))] + rest;
    MainBegins(READ, rest);
    var c1 := Line([CreateStatic(0, "a"), StoreStr(A, 0)], 1, [[], [A]], [], {});
    NextStmt(Compile(READ), 1, READ, rest, c1);
    ReadExpr(c1);
    LineStarts(Compile(READ), 1, GenStmt(READ, rest[0], c1), READ_CODE);
  }

  lemma ReadExpr(c1: CG)
    requires c1 == Line([CreateStatic(0, "a"), StoreStr(A, 0)], 1, [[], [A]], [], {})
    ensures GenStmt(READ, Eval(Concat(SVar(A), Call(0, [SVar(A)]))), c1).blocks == [READ_CODE]
  {
    hide GenStmt, GenS, EmitTemp;
    var scopes := [[], [A]];
    assert READ_CODE[..2] == [CreateStatic(0, "a"), StoreStr(A, 0)];
    ReadLine(READ, A, READ_CODE[..2], 1, scopes, [], {});
    assert READ_CODE[..2] + [LoadStr(1, A)] == READ_CODE[..3];
    CallLine(READ, 0, A, READ_CODE[..3], 2, scopes, [], {});
    assert READ_CODE[..3] + [LoadStr(2, A)] + [CallFn(3, 0, [2])] == READ_CODE[..5];
    EmitLine(READ_CODE[..5], 4, scopes, [] + [3], {} + {A}, ConcatStr(4, 1, 3));
    assert READ_CODE[..5] + [ConcatStr(4, 1, 3)] == READ_CODE;
    ConcatLine(READ, SVar(A), Call(0, [SVar(A)]), c1);
  }

  lemma ConcatLine(p: Program, l: SExpr, r: SExpr, c: CG)
    requires Ok(c) && c.scopes != []
    ensures
      var (c1, a) := GenS(p, l, c);
      var (c2, b) := GenS(p, r, c1);
      GenStmt(p, Eval(Concat(l, r)), c) == EmitTemp(c2, ConcatStr(c2.next, a, b)).0
  {
    hide EmitTemp;
    assert GenStmt(p, Eval(Concat(l, r)), c) == GenS(p, Concat(l, r), c).0;
  }

  lemma MainRuns(code: Code, line: seq<Instr>)
    requires Starts(code, 1, line) && |line| >= 3
    requires line[0] == CreateStatic(0, "a") && line[1] == StoreStr(A, 0) && line[2] == LoadStr(1, A)
    ensures Steps(code, Running(Entry(1, 0, []), [], Heap(map[], 1)), 3)
         == Running(Top(1, 3, 0, [], map[0 := 1, 1 := 1], map[A := 1]), [], H1)
  {
    hide Starts, Step;
    var s0 := Running(Entry(1, 0, []), [], Heap(map[], 1));
    var s1 := Running(Top(1, 1, 0, [], map[0 := 1], map[]), [], H1);
    var s2 := Running(Top(1, 2, 0, [], map[0 := 1], map[A := 1]), [], H1);
    StepLine(code, 1, line, s0);
    StepLine(code, 1, line, s1);
    StepLine(code, 1, line, s2);
    ThreeSteps(code, s0, s1, s2, Running(Top(1, 3, 0, [], map[0 := 1, 1 := 1], map[A := 1]), [], H1));
  }

  /** The string `a` in main's frame, with `take` called on it. */
  lemma ReadCalls(code: Code)
    requires Starts(code, 1, READ_CODE)
    ensures Steps(code, Running(Top(1, 3, 0, [], map[0 := 1, 1 := 1], map[A := 1]), [], H1), 2)
         == Running(Entry(0, 3, [1]), [Top(1, 5, 0, [], map[0 := 1, 1 := 1, 2 := 1], map[A := 1])], H1)
  {
    hide Starts, Step;
    var s3 := Running(Top(1, 3, 0, [], map[0 := 1, 1 := 1], map[A := 1]), [], H1);
    var s4 := Running(Top(1, 4, 0, [], map[0 := 1, 1 := 1, 2 := 1], map[A := 1]), [], H1);
    StepLine(code, 1, READ_CODE, s3);
    StepLine(code, 1, READ_CODE, s4);
    assert ArgObjs(s4.top, [2]) == [1];
    TwoSteps(code, s3, s4);
  }

  lemma TwoSteps(code: Code, s0: State, s1: State)
    requires Step(code, s0) == s1
    ensures Steps(code, s0, 2) == Step(code, s1)
  {
    hide Step;
    assert Steps(code, s0, 2) == Steps(code, s1, 1) == Steps(code, Step(code, s1), 0);
  }

  const H2 := Heap(map[1 := Cell(0, "a"), 2 := Cell(1, "r")], 3)

  lemma TakeReturns(code: Code, dst: Reg, back: Frame)
    requires Starts(code, 0, TAKE_CODE)
    ensures Steps(code, Running(Entry(0, dst, [1]), [back], H1), 7) == Running(back.(sregs := back.sregs[dst := 2]), [], H2)
  {
    hide Steps, Starts;
    RunTake(code, dst, 1, [back], H1);
    assert Recount(Alloc(H1, "r"), 1, -1) == H2;
    assert [back][1..] == [];
  }

  /** The callee releases the string, and the concatenation uses it. */
  lemma ReadThenMoved()
    ensures Steps(Compile(READ), Running(Entry(1, 0, []), [], Heap(map[], 1)), 13) == Stuck
  {
    hide Compile, Steps, Starts, Step;
    var code := Compile(READ);
    ReadCode();
    TakeCode(READ);
    MainRuns(code, READ_CODE);
    ReadCalls(code);
    var back := Top(1, 5, 0, [], map[0 := 1, 1 := 1, 2 := 1], map[A := 1]);
    TakeReturns(code, 3, back);
    var s0 := Running(Entry(1, 0, []), [], Heap(map[], 1));
    StepsAdd(code, s0, 3, 2);
    StepsAdd(code, s0, 5, 7);
    StepsAdd(code, s0, 12, 1);
    DeadOperand(code, Running(back.(sregs := back.sregs[3 := 2]), [], H2));
  }

  lemma DeadOperand(code: Code, st: State)
    requires Starts(code, 1, READ_CODE) && st == Running(Top(1, 5, 0, [], map[0 := 1, 1 := 1, 2 := 1, 3 := 2], map[A := 1]), [], H2)
    ensures Steps(code, st, 1) == Stuck
  {
    StepLine(code, 1, READ_CODE, st);
    assert Steps(code, st, 1) == Steps(code, Step(code, st), 0);
  }

  lemma StartsLess(code: Code, fn: nat, line: seq<Instr>, n: nat)
    requires Starts(code, fn, line) && n <= |line|
    ensures Starts(code, fn, line[..n])
  {
  }

  // ---- Assigned after a move: own string a = "a"; take(a); a = "b"; ----

  const MOVED: Program := [TAKE, Fun([], [DeclStr(A, Lit("a")), Eval(Call(0, [SVar(A)])), AssignStr(A, Lit("b"))])]
  const MOVED_CODE: seq<Instr> := [
    CreateStatic(0, "a"), StoreStr(A, 0), LoadStr(1, A), CallFn(2, 0, [1]), StringRelease(2),
    CreateStatic(3, "b"), LoadStr(4, A), StringRelease(4)]

  lemma MovedCode()
    ensures Starts(Compile(MOVED), 1, MOVED_CODE)
  {
    hide Compile, GenStmts, GenStmt, ReleaseTemps;
    var call, assign := Eval(Call(0, [SVar(A)])), AssignStr(A, Lit("b"));
    assert MOVED[1].body == [DeclStr(A, Lit("a"))] + [call, assign];
    MainBegins(MOVED, [call, assign]);
    var c1 := Line([CreateStatic(0, "a"), StoreStr(A, 0)], 1, [[], [A]], [], {});
    NextStmt(Compile(MOVED), 1, MOVED, [call, assign], c1);
    CallStmt(MOVED);
    assert [call, assign][1..] == [assign];
    var c2 := Line(MOVED_CODE[..5], 3, [[], [A]], [], {A});
    NextStmt(Compile(MOVED), 1, MOVED, [assign], c2);
    MovedAssign(c2);
    LineStarts(Compile(MOVED), 1, GenStmt(MOVED, assign, c2), MOVED_CODE + [StoreStr(A, 3)]);
    StartsLess(Compile(MOVED), 1, MOVED_CODE + [StoreStr(A, 3)], 8);
    assert (MOVED_CODE + [StoreStr(A, 3)])[..8] == MOVED_CODE;
  }

  /** take(a); as a statement. */
  lemma CallStmt(p: Program)
    requires |p| > 0 && |p[0].params| == 1 && p[0].params[0].own
    ensures
      var c1 := Line([CreateStatic(0, "a"), StoreStr(A, 0)], 1, [[], [A]], [], {});
      ReleaseTemps(GenStmt(p, Eval(Call(0, [SVar(A)])), c1)) == Line(MOVED_CODE[..5], 3, [[], [A]], [], {A})
  {
    hide GenStmt, ReleaseTemps;
    var c1 := Line([CreateStatic(0, "a"), StoreStr(A, 0)], 1, [[], [A]], [], {});
    EvalIs(p, Call(0, [SVar(A)]), c1);
    hide GenS;
    CallLine(p, 0, A, [CreateStatic(0, "a"), StoreStr(A, 0)], 1, [[], [A]], [], {});
    assert [CreateStatic(0, "a"), StoreStr(A, 0)] + [LoadStr(1, A)] + [CallFn(2, 0, [1])] == MOVED_CODE[..4];
    assert [] + [2] == [2] && {} + {A} == {A};
    FlushLine(MOVED_CODE[..4], 3, [[], [A]], [2], {A});
    assert MOVED_CODE[..4] + [StringRelease(2)] == MOVED_CODE[..5];
  }

  lemma EvalIs(p: Program, e: SExpr, c: CG)
    requires Ok(c) && c.scopes != []
    ensures GenStmt(p, Eval(e), c) == GenS(p, e, c).0
  {
    hide GenS;
  }

  lemma MovedAssign(c2: CG)
    requires c2 == Line(MOVED_CODE[..5], 3, [[], [A]], [], {A})
    ensures GenStmt(MOVED, AssignStr(A, Lit("b")), c2).blocks == [MOVED_CODE + [StoreStr(A, 3)]]
  {
    hide GenStmt;
    AssignLine(MOVED, A, "b", MOVED_CODE[..5], 3, [[], [A]], {A});
    assert MOVED_CODE[..5] + [CreateStatic(3, "b")] + [LoadStr(4, A)] + [StringRelease(4)] + [StoreStr(A, 3)]
        == MOVED_CODE + [StoreStr(A, 3)];
  }

  /** x = "t"; */
  lemma AssignLine(p: Program, x: Var, t: string, code: seq<Instr>, next: Reg, scopes: seq<seq<Var>>, moved: set<Var>)
    requires scopes != []
    ensures GenStmt(p, AssignStr(x, Lit(t)), Line(code, next, scopes, [], moved))
         == Line(code + [CreateStatic(next, t)] + [LoadStr(next + 1, x)] + [StringRelease(next + 1)] + [StoreStr(x, next)],
                 next + 2, scopes, [], moved)
  {
    hide GenS, Emit, Fresh;
    LitLine(p, t, code, next, scopes, [], moved);
    var code1 := code + [CreateStatic(next, t)];
    var temps := [] + [next];
    EmitLine(code1, next + 1, scopes, temps, moved, LoadStr(next + 1, x));
    EmitLine(code1, next + 2, scopes, temps, moved, LoadStr(next + 1, x));
    var code2 := code1 + [LoadStr(next + 1, x)];
    EmitLine(code2, next + 2, scopes, temps, moved, StringRelease(next + 1));
    assert Without(temps, next) == [];
    EmitLine(code2 + [StringRelease(next + 1)], next + 2, scopes, [], moved, StoreStr(x, next));
    assert GenStmt(p, AssignStr(x, Lit(t)), Line(code, next, scopes, [], moved))
        == GenAssign(p, x, Lit(t), Line(code, next, scopes, [], moved));
  }

  /** The release of the old value meets a string the callee has released. */
  lemma AssignedAfterMove()
    ensures Steps(Compile(MOVED), Running(Entry(1, 0, []), [], Heap(map[], 1)), 15) == Stuck
  {
    hide Compile, Steps, Starts, Step;
    var code := Compile(MOVED);
    MovedCode();
    TakeCode(MOVED);
    MainRuns(code, MOVED_CODE);
    var s0 := Running(Entry(1, 0, []), [], Heap(map[], 1));
    var back := Top(1, 4, 0, [], map[0 := 1, 1 := 1], map[A := 1]);
    MovedCalls(code);
    TakeReturns(code, 2, back);
    MovedEnds(code, Running(back.(sregs := back.sregs[2 := 2]), [], H2));
    StepsAdd(code, s0, 3, 1);
    StepsAdd(code, s0, 4, 7);
    StepsAdd(code, s0, 11, 4);
  }

  lemma MovedCalls(code: Code)
    requires Starts(code, 1, MOVED_CODE)
    ensures Steps(code, Running(Top(1, 3, 0, [], map[0 := 1, 1 := 1], map[A := 1]), [], H1), 1)
         == Running(Entry(0, 2, [1]), [Top(1, 4, 0, [], map[0 := 1, 1 := 1], map[A := 1])], H1)
  {
    hide Starts, Step;
    var s3 := Running(Top(1, 3, 0, [], map[0 := 1, 1 := 1], map[A := 1]), [], H1);
    StepLine(code, 1, MOVED_CODE, s3);
    assert ArgObjs(s3.top, [1]) == [1];
    assert Steps(code, s3, 1) == Steps(code, Step(code, s3), 0);
  }

  lemma MovedEnds(code: Code, st: State)
    requires Starts(code, 1, MOVED_CODE) && st == Running(Top(1, 4, 0, [], map[0 := 1, 1 := 1, 2 := 2], map[A := 1]), [], H2)
    ensures Steps(code, st, 4) == Stuck
  {
    hide Starts, Step;
    var h3 := Heap(map[1 := Cell(0, "a"), 2 := Cell(0, "r")], 3);
    var h4 := Heap(map[1 := Cell(0, "a"), 2 := Cell(0, "r"), 3 := Cell(1, "b")], 4);
    var regs := map[0 := 1, 1 := 1, 2 := 2, 3 := 3];
    var s1 := Running(Top(1, 5, 0, [], map[0 := 1, 1 := 1, 2 := 2], map[A := 1]), [], h3);
    var s2 := Running(Top(1, 6, 0, [], regs, map[A := 1]), [], h4);
    var s3 := Running(Top(1, 7, 0, [], regs[4 := 1], map[A := 1]), [], h4);
    StepLine(code, 1, MOVED_CODE, st);
    StepLine(code, 1, MOVED_CODE, s1);
    StepLine(code, 1, MOVED_CODE, s2);
    StepLine(code, 1, MOVED_CODE, s3);
    FourSteps(code, st, s1, s2, s3, Stuck);
  }

  // ---- Declared and never assigned: string a; ----

  const EMPTY_DECL: Program := [Fun([], [DeclEmpty(A)])]

  lemma EmptyCode()
    ensures Starts(Compile(EMPTY_DECL), 0, [LoadStr(0, A)])
  {
    hide Compile, GenStmts, GenStmt, ReleaseTemps, ReleaseVars;
    var c0 := Line([], 0, [[], []], [], {});
    var f := EMPTY_DECL[0];
    MainPrologue(f);
    var c1 := Line([], 0, [[], [A]], [], {});
    assert GenStmts(EMPTY_DECL, f.body, c0) == c1 by { EmptyBody(c0); }
    ReleaseLine([], 0, [[], [A]], {}, A, []);
    assert [A] + [] == [A];
    var c2 := Line([] + [LoadStr(0, A)] + [StringRelease(0)], 1, [[], [A]], [], {});
    assert ReleaseVars(c1, [A]) == c2 by { ReleaseLine([] + [LoadStr(0, A)] + [StringRelease(0)], 1, [[], [A]], {}, A, []); }
    assert GenBody(EMPTY_DECL, f).blocks == c2.blocks;
    assert Prefixes(GenBody(EMPTY_DECL, f).blocks, GenFunction(EMPTY_DECL, f).blocks);
    LinkedSame(Compile(EMPTY_DECL), 0, c2, GenBody(EMPTY_DECL, f)) by {
      LinkedBefore(Compile(EMPTY_DECL), 0, GenBody(EMPTY_DECL, f), GenFunction(EMPTY_DECL, f));
    }
    LineStarts(Compile(EMPTY_DECL), 0, c2, [] + [LoadStr(0, A)] + [StringRelease(0)]);
    StartsLess(Compile(EMPTY_DECL), 0, [] + [LoadStr(0, A)] + [StringRelease(0)], 1);
    assert ([] + [LoadStr(0, A)] + [StringRelease(0)])[..1] == [LoadStr(0, A)];
  }

  lemma EmptyBody(c0: CG)
    requires c0 == Line([], 0, [[], []], [], {})
    ensures GenStmts(EMPTY_DECL, [DeclEmpty(A)], c0) == Line([], 0, [[], [A]], [], {})
  {
    var c1 := Declare(c0, A);
    var none: seq<Var> := [];
    assert none + [A] == [A];
    assert c1.scopes == [[], [A]];
    assert GenStmt(EMPTY_DECL, DeclEmpty(A), c0) == c1;
    FlushLine([], 0, [[], [A]], [], {});
    assert [DeclEmpty(A)][1..] == [];
    assert GenStmts(EMPTY_DECL, [], c1) == c1;
  }

  /** The release at the end of the scope reads a slot that was never written. */
  lemma EmptyIsReleased()
    ensures Steps(Compile(EMPTY_DECL), Running(Entry(0, 0, []), [], Heap(map[], 1)), 1) == Stuck
  {
    hide Compile, Starts;
    EmptyCode();
    var st := Running(Entry(0, 0, []), [], Heap(map[], 1));
    StepLine(Compile(EMPTY_DECL), 0, [LoadStr(0, A)], st);
    assert Steps(Compile(EMPTY_DECL), st, 1) == Steps(Compile(EMPTY_DECL), Step(Compile(EMPTY_DECL), st), 0);
  }

  // ---- Assigned to a borrowed parameter: string a = "a"; replace(a); with fn replace(string b) { b = "b"; } ----

  const B := Var(2, false)
  const REPLACE := Fun([B], [AssignStr(B, Lit("b"))])
  const REPLACE_CODE: seq<Instr> := [
    StoreArg(B, 0), CreateStatic(0, "b"), LoadStr(1, B), StringRelease(1), StoreStr(B, 0), RetNull]

  const BORROWED: Program := [REPLACE, Fun([], [DeclStr(A, Lit("a")), Eval(Call(0, [SVar(A)]))])]
  const BORROWED_CODE: seq<Instr> := [
    CreateStatic(0, "a"), StoreStr(A, 0), LoadStr(1, A), CallFn(2, 0, [1]), StringRelease(2), LoadStr(3, A), StringRelease(3)]

  lemma ReplaceCode()
    ensures Starts(Compile(BORROWED), 0, REPLACE_CODE)
  {
    hide Compile, GenStmt, ReleaseTemps;
    var code := Compile(BORROWED);
    var c0 := Line([StoreArg(B, 0)], 0, [[], []], [], {});
    var c1 := Line(REPLACE_CODE[..5], 2, [[], []], [], {});
    ReplacePrologue();
    ReplaceBody();
    assert ReleaseVars(c1, []) == c1;
    assert GenBody(BORROWED, REPLACE) == Line(REPLACE_CODE[..5], 2, [[]], [], {});
    EmitLine(REPLACE_CODE[..5], 2, [[]], [], {}, RetNull);
    assert REPLACE_CODE[..5] + [RetNull] == REPLACE_CODE;
    assert GenFunction(BORROWED, REPLACE) == Line(REPLACE_CODE, 2, [[]], [], {});
    assert code[0] == [REPLACE_CODE];
  }

  lemma ReplacePrologue()
    ensures PushScope(Prologue(REPLACE)) == Line([StoreArg(B, 0)], 0, [[], []], [], {})
  {
    hide Emit;
    assert [B][1..] == [] && [] + [StoreArg(B, 0)] == [StoreArg(B, 0)];
    EmitLine([], 0, [], [], {}, StoreArg(B, 0));
    assert EMPTY == Line([], 0, [], [], {});
    assert StoreArgs(EMPTY, [B], 0) == Emit(EMPTY, StoreArg(B, 0));
    assert OwnParams([B]) == [];
    var none: seq<Var> := [];
    assert [none] + [none] == [none, none];
  }

  lemma ReplaceBody()
    ensures GenStmts(BORROWED, REPLACE.body, Line([StoreArg(B, 0)], 0, [[], []], [], {}))
         == Line(REPLACE_CODE[..5], 2, [[], []], [], {})
  {
    hide GenStmt, ReleaseTemps;
    var c0 := Line([StoreArg(B, 0)], 0, [[], []], [], {});
    var c1 := Line(REPLACE_CODE[..5], 2, [[], []], [], {});
    AssignLine(BORROWED, B, "b", [StoreArg(B, 0)], 0, [[], []], {});
    assert [StoreArg(B, 0)] + [CreateStatic(0, "b")] + [LoadStr(1, B)] + [StringRelease(1)] + [StoreStr(B, 0)] == REPLACE_CODE[..5];
    FlushLine(REPLACE_CODE[..5], 2, [[], []], [], {});
    assert REPLACE.body[1..] == [];
    assert GenStmts(BORROWED, [], c1) == c1;
    assert GenStmts(BORROWED, REPLACE.body, c0) == GenStmts(BORROWED, REPLACE.body[1..], c1);
  }

  lemma BorrowedCode()
    ensures Starts(Compile(BORROWED), 1, BORROWED_CODE)
  {
    hide Compile, GenStmts, ReleaseTemps, ReleaseVars;
    var code := Compile(BORROWED);
    var c2 := Line(BORROWED_CODE[..5], 3, [[], [A]], [], {});
    var c3 := Line(BORROWED_CODE, 4, [[], [A]], [], {});
    var f := BORROWED[1];
    MainPrologue(f);
    BorrowedBody();
    ReleaseLine(BORROWED_CODE[..5], 3, [[], [A]], {}, A, []);
    assert [A] + [] == [A] && BORROWED_CODE[..5] + [LoadStr(3, A)] + [StringRelease(3)] == BORROWED_CODE;
    ReleaseLine(BORROWED_CODE, 4, [[], [A]], {}, A, []);
    assert ReleaseVars(c2, [A]) == c3;
    assert GenBody(BORROWED, f).blocks == c3.blocks;
    assert Prefixes(GenBody(BORROWED, f).blocks, GenFunction(BORROWED, f).blocks);
    LinkedBefore(code, 1, GenBody(BORROWED, f), GenFunction(BORROWED, f));
    LineStarts(code, 1, GenBody(BORROWED, f), BORROWED_CODE);
  }

  lemma BorrowedBody()
    ensures GenStmts(BORROWED, BORROWED[1].body, Line([], 0, [[], []], [], {})) == Line(BORROWED_CODE[..5], 3, [[], [A]], [], {})
  {
    hide GenStmt, ReleaseTemps, GenS;
    var decl, call := DeclStr(A, Lit("a")), Eval(Call(0, [SVar(A)]));
    var c0 := Line([], 0, [[], []], [], {});
    var c1 := Line([CreateStatic(0, "a"), StoreStr(A, 0)], 1, [[], [A]], [], {});
    var c2 := Line(BORROWED_CODE[..5], 3, [[], [A]], [], {});
    MainDeclares(BORROWED);
    BorrowedCall(c1);
    assert BORROWED[1].body == [decl, call] && [decl, call][1..] == [call] && [call][1..] == [];
    assert GenStmts(BORROWED, [decl, call], c0) == GenStmts(BORROWED, [call], c1);
    assert GenStmts(BORROWED, [call], c1) == GenStmts(BORROWED, [], c2);
    assert GenStmts(BORROWED, [], c2) == c2;
  }

  lemma BorrowedCall(c1: CG)
    requires c1 == Line([CreateStatic(0, "a"), StoreStr(A, 0)], 1, [[], [A]], [], {})
    ensures ReleaseTemps(GenStmt(BORROWED, Eval(Call(0, [SVar(A)])), c1)) == Line(BORROWED_CODE[..5], 3, [[], [A]], [], {})
  {
    hide GenStmt, ReleaseTemps, GenS;
    EvalIs(BORROWED, Call(0, [SVar(A)]), c1);
    CallLine(BORROWED, 0, A, [CreateStatic(0, "a"), StoreStr(A, 0)], 1, [[], [A]], [], {});
    assert [CreateStatic(0, "a"), StoreStr(A, 0)] + [LoadStr(1, A)] + [CallFn(2, 0, [1])] == BORROWED_CODE[..4];
    var none: set<Var> := {};
    assert [] + [2] == [2] && none + none == none;
    FlushLine(BORROWED_CODE[..4], 3, [[], [A]], [2], {});
    assert BORROWED_CODE[..4] + [StringRelease(2)] == BORROWED_CODE[..5];
  }

  /** The callee releases the caller's string, and so does the caller. */
  lemma BorrowedIsReleasedTwice()
    ensures Steps(Compile(BORROWED), Running(Entry(1, 0, []), [], Heap(map[], 1)), 13) == Stuck
  {
    hide Compile, Steps, Starts, Step;
    var code := Compile(BORROWED);
    BorrowedCode();
    ReplaceCode();
    MainRuns(code, BORROWED_CODE);
    var s0 := Running(Entry(1, 0, []), [], Heap(map[], 1));
    var back := Top(1, 4, 0, [], map[0 := 1, 1 := 1], map[A := 1]);
    BorrowedCalls(code);
    RunReplace(code, back);
    BorrowedEnds(code, Running(back.(sregs := back.sregs[2 := 0]), [], HB));
    StepsAdd(code, s0, 3, 1);
    StepsAdd(code, s0, 4, 6);
    StepsAdd(code, s0, 10, 3);
  }

  lemma BorrowedCalls(code: Code)
    requires Starts(code, 1, BORROWED_CODE)
    ensures Steps(code, Running(Top(1, 3, 0, [], map[0 := 1, 1 := 1], map[A := 1]), [], H1), 1)
         == Running(Entry(0, 2, [1]), [Top(1, 4, 0, [], map[0 := 1, 1 := 1], map[A := 1])], H1)
  {
    hide Starts, Step;
    var s3 := Running(Top(1, 3, 0, [], map[0 := 1, 1 := 1], map[A := 1]), [], H1);
    StepLine(code, 1, BORROWED_CODE, s3);
    assert ArgObjs(s3.top, [1]) == [1];
    assert Steps(code, s3, 1) == Steps(code, Step(code, s3), 0);
  }

  const HB := Heap(map[1 := Cell(0, "a"), 2 := Cell(1, "b")], 3)

  lemma RunReplace(code: Code, back: Frame)
    requires Starts(code, 0, REPLACE_CODE)
    ensures Steps(code, Running(Entry(0, 2, [1]), [back], H1), 6) == Running(back.(sregs := back.sregs[2 := 0]), [], HB)
  {
    hide Starts, Steps;
    ReplaceReads(code, back);
    ReplaceStores(code, back);
    StepsAdd(code, Running(Entry(0, 2, [1]), [back], H1), 3, 3);
  }

  lemma ReplaceReads(code: Code, back: Frame)
    requires Starts(code, 0, REPLACE_CODE)
    ensures Steps(code, Running(Entry(0, 2, [1]), [back], H1), 3)
         == Running(Top(0, 3, 2, [1], map[0 := 2, 1 := 1], map[B := 1]), [back],
                    Heap(map[1 := Cell(1, "a"), 2 := Cell(1, "b")], 3))
  {
    hide Starts, Step;
    var h2 := Heap(map[1 := Cell(1, "a"), 2 := Cell(1, "b")], 3);
    var s0 := Running(Entry(0, 2, [1]), [back], H1);
    var s1 := Running(Top(0, 1, 2, [1], map[], map[B := 1]), [back], H1);
    var s2 := Running(Top(0, 2, 2, [1], map[0 := 2], map[B := 1]), [back], h2);
    StepLine(code, 0, REPLACE_CODE, s0);
    StepLine(code, 0, REPLACE_CODE, s1);
    StepLine(code, 0, REPLACE_CODE, s2);
    ThreeSteps(code, s0, s1, s2, Running(Top(0, 3, 2, [1], map[0 := 2, 1 := 1], map[B := 1]), [back], h2));
  }

  lemma ReplaceStores(code: Code, back: Frame)
    requires Starts(code, 0, REPLACE_CODE)
    ensures Steps(code, Running(Top(0, 3, 2, [1], map[0 := 2, 1 := 1], map[B := 1]), [back],
                                Heap(map[1 := Cell(1, "a"), 2 := Cell(1, "b")], 3)), 3)
         == Running(back.(sregs := back.sregs[2 := 0]), [], HB)
  {
    hide Starts, Step, Effect;
    var h2 := Heap(map[1 := Cell(1, "a"), 2 := Cell(1, "b")], 3);
    var s3 := Running(Top(0, 3, 2, [1], map[0 := 2, 1 := 1], map[B := 1]), [back], h2);
    var s4 := Running(Top(0, 4, 2, [1], map[0 := 2, 1 := 1], map[B := 1]), [back], HB);
    var s5 := Running(Top(0, 5, 2, [1], map[0 := 2, 1 := 1], map[B := 2]), [back], HB);
    StepLine(code, 0, REPLACE_CODE, s3);
    ReplaceReleases(s3.top, [back], h2);
    StepLine(code, 0, REPLACE_CODE, s4);
    ReplaceEffects(s4.top, s5.top, back);
    StepLine(code, 0, REPLACE_CODE, s5);
    ThreeSteps(code, s3, s4, s5, Running(back.(sregs := back.sregs[2 := 0]), [], HB));
  }

  lemma ReplaceReleases(f: Frame, rest: seq<Frame>, h: Heap)
    requires 1 in f.sregs && f.sregs[1] == 1 && h == Heap(map[1 := Cell(1, "a"), 2 := Cell(1, "b")], 3)
    ensures Effect(StringRelease(1), f, rest, h) == Running(f.(pc := f.pc + 1), rest, HB)
  {
    assert Recount(h, 1, -1).cells == HB.cells;
  }

  lemma ReplaceEffects(f: Frame, g: Frame, back: Frame)
    requires 0 in f.sregs && g == f.(svars := f.svars[B := f.sregs[0]], pc := f.pc + 1)
    ensures Effect(StoreStr(B, 0), f, [back], HB) == Running(g, [back], HB)
    ensures Effect(RetNull, g, [back], HB) == Running(back.(sregs := back.sregs[g.dst := 0]), [], HB)
  {
    assert [back][1..] == [];
  }

  lemma BorrowedEnds(code: Code, st: State)
    requires Starts(code, 1, BORROWED_CODE) && st == Running(Top(1, 4, 0, [], map[0 := 1, 1 := 1, 2 := 0], map[A := 1]), [], HB)
    ensures Steps(code, st, 3) == Stuck
  {
    hide Starts, Step;
    var s1 := Running(Top(1, 5, 0, [], map[0 := 1, 1 := 1, 2 := 0], map[A := 1]), [], HB);
    var s2 := Running(Top(1, 6, 0, [], map[0 := 1, 1 := 1, 2 := 0, 3 := 1], map[A := 1]), [], HB);
    StepLine(code, 1, BORROWED_CODE, st);
    StepLine(code, 1, BORROWED_CODE, s1);
    StepLine(code, 1, BORROWED_CODE, s2);
    ThreeSteps(code, st, s1, s2, Stuck);
  }

  // ---- Passed twice: own string a = "a"; pair(a, a); ----

  const P2 := Var(3, true)

  /** fn pair(own string p, own string q) -> string { return "r"; } */
  const PAIR := Fun([P, P2], [Return(Lit("r"))])
  const PAIR_CODE: seq<Instr> := [
    StoreArg(P, 0), StoreArg(P2, 1), CreateStatic(0, "r"), StringRetain(0), StringRelease(0),
    LoadStr(1, P), StringRelease(1), LoadStr(2, P2), StringRelease(2)]

  const TWICE: Program := [PAIR, Fun([], [DeclStr(A, Lit("a")), Eval(Call(0, [SVar(A), SVar(A)]))])]
  const TWICE_CODE: seq<Instr> := [
    CreateStatic(0, "a"), StoreStr(A, 0), LoadStr(1, A), LoadStr(2, A), CallFn(3, 0, [1, 2])]

  lemma PairCode()
    ensures Starts(Compile(TWICE), 0, PAIR_CODE)
  {
    hide Compile, GenStmts, GenStmt, ReleaseTemps;
    var code := Compile(TWICE);
    BodyLinked(TWICE, 0);
    PairPrologue();
    var c0 := Line([StoreArg(P, 0), StoreArg(P2, 1)], 0, [[P, P2], []], [], {});
    NextStmt(code, 0, TWICE, PAIR.body, c0);
    PairReturn();
    LineStarts(code, 0, GenStmt(TWICE, Return(Lit("r")), c0), PAIR_CODE + [Machine.Ret(0)]);
    StartsLess(code, 0, PAIR_CODE + [Machine.Ret(0)], 9);
    assert (PAIR_CODE + [Machine.Ret(0)])[..9] == PAIR_CODE;
  }

  lemma StoreArgLine(code: seq<Instr>, x: Var, rest: seq<Var>, k: nat)
    ensures StoreArgs(Line(code, 0, [], [], {}), [x] + rest, k)
         == StoreArgs(Line(code + [StoreArg(x, k)], 0, [], [], {}), rest, k + 1)
    ensures StoreArgs(Line(code, 0, [], [], {}), [], k) == Line(code, 0, [], [], {})
  {
    hide Emit;
    EmitLine(code, 0, [], [], {}, StoreArg(x, k));
    assert ([x] + rest)[1..] == rest;
  }

  lemma PairPrologue()
    ensures PushScope(Prologue(PAIR)) == Line([StoreArg(P, 0), StoreArg(P2, 1)], 0, [[P, P2], []], [], {})
  {
    hide StoreArgs, OwnParams;
    StoreArgLine([], P, [P2], 0);
    StoreArgLine([StoreArg(P, 0)], P2, [], 1);
    StoreArgLine([StoreArg(P, 0), StoreArg(P2, 1)], P, [], 2);
    assert [P] + [P2] == [P, P2] && [P2] + [] == [P2] && [] + [StoreArg(P, 0)] == [StoreArg(P, 0)];
    assert [StoreArg(P, 0)] + [StoreArg(P2, 1)] == [StoreArg(P, 0), StoreArg(P2, 1)];
    assert EMPTY == Line([], 0, [], [], {});
    PairOwns();
    assert [[P, P2]] + [[]] == [[P, P2], []];
  }

  lemma PairOwns()
    ensures OwnParams([P, P2]) == [P, P2]
  {
    assert [P, P2][1..] == [P2] && [P2][1..] == [];
    assert OwnParams([P2]) == [P2] && [P] + [P2] == [P, P2];
  }

  lemma PairReturn()
    ensures GenStmt(TWICE, Return(Lit("r")), Line([StoreArg(P, 0), StoreArg(P2, 1)], 0, [[P, P2], []], [], {})).blocks
         == [PAIR_CODE + [Machine.Ret(0)]]
  {
    hide Emit, ReleaseVars, ReleaseOrder, GenStmt;
    var scopes := [[P, P2], []];
    ReturnLine(TWICE, "r", [StoreArg(P, 0), StoreArg(P2, 1)], scopes);
    assert [StoreArg(P, 0), StoreArg(P2, 1)] + [CreateStatic(0, "r")] + [StringRetain(0)] + [StringRelease(0)] == PAIR_CODE[..5];
    PairOrder();
    ReleaseLine(PAIR_CODE[..5], 1, scopes, {}, P, [P2]);
    assert [P] + [P2] == [P, P2] && PAIR_CODE[..5] + [LoadStr(1, P)] + [StringRelease(1)] == PAIR_CODE[..7];
    ReleaseLine(PAIR_CODE[..7], 2, scopes, {}, P2, []);
    assert [P2] + [] == [P2] && PAIR_CODE[..7] + [LoadStr(2, P2)] + [StringRelease(2)] == PAIR_CODE;
    ReleaseLine(PAIR_CODE, 3, scopes, {}, P, []);
    EmitLine(PAIR_CODE, 3, scopes, [], {}, Machine.Ret(0));
  }

  lemma PairOrder()
    ensures ReleaseOrder([[P, P2], []]) == [P, P2]
  {
    assert [[P, P2], []][..1] == [[P, P2]] && [[P, P2]][..0] == [];
    assert ReleaseOrder([[P, P2]]) == [P, P2] + ReleaseOrder([]);
  }

  lemma TwiceCode()
    ensures Starts(Compile(TWICE), 1, TWICE_CODE)
  {
    hide Compile, GenStmts, GenStmt, ReleaseTemps;
    var rest := [Eval(Call(0, [SVar(A), SVar(A)]))];
    assert TWICE[1].body == [DeclStr(A, Lit("a"))] + rest;
    MainBegins(TWICE, rest);
    var c1 := Line([CreateStatic(0, "a"), StoreStr(A, 0)], 1, [[], [A]], [], {});
    NextStmt(Compile(TWICE), 1, TWICE, rest, c1);
    TwiceCall(c1);
    LineStarts(Compile(TWICE), 1, GenStmt(TWICE, rest[0], c1), TWICE_CODE);
  }

  lemma TwiceCall(c1: CG)
    requires c1 == Line([CreateStatic(0, "a"), StoreStr(A, 0)], 1, [[], [A]], [], {})
    ensures GenStmt(TWICE, Eval(Call(0, [SVar(A), SVar(A)])), c1).blocks == [TWICE_CODE]
  {
    hide GenStmt, EmitTemp, GenArgs;
    var args := [SVar(A), SVar(A)];
    EvalIs(TWICE, Call(0, args), c1);
    TwoArguments(TWICE, A, c1);
    var scopes := [[], [A]];
    assert TWICE_CODE[..2] == [CreateStatic(0, "a"), StoreStr(A, 0)];
    ReadLine(TWICE, A, TWICE_CODE[..2], 1, scopes, [], {});
    assert TWICE_CODE[..2] + [LoadStr(1, A)] == TWICE_CODE[..3];
    ReadLine(TWICE, A, TWICE_CODE[..3], 2, scopes, [], {});
    assert TWICE_CODE[..3] + [LoadStr(2, A)] == TWICE_CODE[..4];
    var moves := OwnMoves(args, ParamsOf(TWICE, 0));
    EmitLine(TWICE_CODE[..4], 3, scopes, [], {} + moves, CallFn(3, 0, [1, 2]));
    assert TWICE_CODE[..4] + [CallFn(3, 0, [1, 2])] == TWICE_CODE;
  }

  lemma TwoArguments(p: Program, x: Var, c: CG)
    requires Ok(c)
    ensures
      var (c1, a) := GenS(p, SVar(x), c);
      var (c2, b) := GenS(p, SVar(x), c1);
      GenArgs(p, [SVar(x), SVar(x)], c) == (c2, [a, b])
  {
    hide GenS;
    assert [SVar(x), SVar(x)][..1] == [SVar(x)];
    OneArgument(p, x, c);
    var (c1, a) := GenS(p, SVar(x), c);
    var (c2, b) := GenS(p, SVar(x), c1);
    assert [a] + [b] == [a, b];
  }

  /** Both own parameters hold the one reference, and both are released. */
  lemma PassedTwice()
    ensures Steps(Compile(TWICE), Running(Entry(1, 0, []), [], Heap(map[], 1)), 14) == Stuck
  {
    hide Compile, Steps, Starts, Step;
    var code := Compile(TWICE);
    TwiceCode();
    PairCode();
    MainRuns(code, TWICE_CODE);
    var s0 := Running(Entry(1, 0, []), [], Heap(map[], 1));
    var back := Top(1, 5, 0, [], map[0 := 1, 1 := 1, 2 := 1], map[A := 1]);
    TwiceCalls(code);
    PairBegins(code, [back]);
    PairEnds(code, [back]);
    StepsAdd(code, s0, 3, 2);
    StepsAdd(code, s0, 5, 5);
    StepsAdd(code, s0, 10, 4);
  }

  lemma TwiceCalls(code: Code)
    requires Starts(code, 1, TWICE_CODE)
    ensures Steps(code, Running(Top(1, 3, 0, [], map[0 := 1, 1 := 1], map[A := 1]), [], H1), 2)
         == Running(Entry(0, 3, [1, 1]), [Top(1, 5, 0, [], map[0 := 1, 1 := 1, 2 := 1], map[A := 1])], H1)
  {
    hide Starts, Step;
    var s3 := Running(Top(1, 3, 0, [], map[0 := 1, 1 := 1], map[A := 1]), [], H1);
    var s4 := Running(Top(1, 4, 0, [], map[0 := 1, 1 := 1, 2 := 1], map[A := 1]), [], H1);
    StepLine(code, 1, TWICE_CODE, s3);
    StepLine(code, 1, TWICE_CODE, s4);
    assert ArgObjs(s4.top, [1, 2]) == [1, 1];
    TwoSteps(code, s3, s4);
  }

  lemma PairBegins(code: Code, rest: seq<Frame>)
    requires Starts(code, 0, PAIR_CODE)
    ensures Steps(code, Running(Entry(0, 3, [1, 1]), rest, H1), 5)
         == Running(Top(0, 5, 3, [1, 1], map[0 := 2], map[P := 1, P2 := 1]), rest, Alloc(H1, "r"))
  {
    hide Starts, Step;
    var h1 := Alloc(H1, "r");
    var slots := map[P := 1, P2 := 1];
    var s0 := Running(Entry(0, 3, [1, 1]), rest, H1);
    var s1 := Running(Top(0, 1, 3, [1, 1], map[], map[P := 1]), rest, H1);
    var s2 := Running(Top(0, 2, 3, [1, 1], map[], slots), rest, H1);
    var s3 := Running(Top(0, 3, 3, [1, 1], map[0 := 2], slots), rest, h1);
    var s4 := Running(Top(0, 4, 3, [1, 1], map[0 := 2], slots), rest, Recount(h1, 2, 1));
    StepLine(code, 0, PAIR_CODE, s0);
    StepLine(code, 0, PAIR_CODE, s1);
    StepLine(code, 0, PAIR_CODE, s2);
    StepLine(code, 0, PAIR_CODE, s3);
    StepLine(code, 0, PAIR_CODE, s4);
    assert Recount(Recount(h1, 2, 1), 2, -1).cells == h1.cells;
    hide Steps;
    FourSteps(code, s0, s1, s2, s3, s4);
    StepsAdd(code, s0, 4, 1);
    LastStep(code, s4);
  }

  lemma LastStep(code: Code, st: State)
    ensures Steps(code, st, 1) == Step(code, st)
  {
    assert Steps(code, st, 1) == Steps(code, Step(code, st), 0);
  }

  lemma PairEnds(code: Code, rest: seq<Frame>)
    requires Starts(code, 0, PAIR_CODE)
    ensures Steps(code, Running(Top(0, 5, 3, [1, 1], map[0 := 2], map[P := 1, P2 := 1]), rest, Alloc(H1, "r")), 4) == Stuck
  {
    hide Starts, Step;
    var h1 := Alloc(H1, "r");
    var slots := map[P := 1, P2 := 1];
    var h2 := Recount(h1, 1, -1);
    var s5 := Running(Top(0, 5, 3, [1, 1], map[0 := 2], slots), rest, h1);
    var s6 := Running(Top(0, 6, 3, [1, 1], map[0 := 2, 1 := 1], slots), rest, h1);
    var s7 := Running(Top(0, 7, 3, [1, 1], map[0 := 2, 1 := 1], slots), rest, h2);
    var s8 := Running(Top(0, 8, 3, [1, 1], map[0 := 2, 1 := 1, 2 := 1], slots), rest, h2);
    StepLine(code, 0, PAIR_CODE, s5);
    StepLine(code, 0, PAIR_CODE, s6);
    StepLine(code, 0, PAIR_CODE, s7);
    StepLine(code, 0, PAIR_CODE, s8);
    FourSteps(code, s5, s6, s7, s8, Stuck);
  }

  // ---- Moved by a loop condition: own string a = "a"; while (take(a) == "r") {} ----

  const LOOP: Program := [TAKE, Fun([], [DeclStr(A, Lit("a")), While(StrCmp(true, Call(0, [SVar(A)]), Lit("r")), [])])]
  const ENTER_CODE: seq<Instr> := [CreateStatic(0, "a"), StoreStr(A, 0), Br(1)]
  const COND_CODE: seq<Instr> := [
    LoadStr(1, A), CallFn(2, 0, [1]), CreateStatic(3, "r"), StringEquals(4, 2, 3),
    StringRelease(2), StringRelease(3), CondBr(Tmp(4), 2, 3)]

  /** In the condition block of the loop. */
  function Cond(code: seq<Instr>, next: Reg, temps: seq<Reg>, moved: set<Var>): (c: CG)
    ensures Ok(c)
  {
    CG([ENTER_CODE, code, [], []], 1, next, [[], [A]], temps, moved, NoLoop)
  }

  lemma EmitCond(code: seq<Instr>, next: Reg, temps: seq<Reg>, moved: set<Var>, i: Instr)
    ensures Emit(Cond(code, next, temps, moved), i) == Cond(code + [i], next, temps, moved)
    ensures EmitTemp(Cond(code, next, temps, moved), i) == (Cond(code + [i], next + 1, temps + [next], moved), next)
    ensures Fresh(Cond(code, next, temps, moved)) == Cond(code, next + 1, temps, moved)
  {
  }

  lemma CondCall()
    ensures GenS(LOOP, Call(0, [SVar(A)]), Cond([], 1, [], {})) == (Cond(COND_CODE[..2], 3, [2], {A}), 2)
  {
    hide Emit, Fresh, EmitTemp, GenArgs;
    var c := Cond([], 1, [], {});
    EmitCond([], 1, [], {}, LoadStr(1, A));
    EmitCond([], 2, [], {}, LoadStr(1, A));
    assert [] + [LoadStr(1, A)] == COND_CODE[..1];
    OneArgument(LOOP, A, c);
    assert GenS(LOOP, SVar(A), c) == (Cond(COND_CODE[..1], 2, [], {}), 1);
    OneMove(A, LOOP[0].params);
    EmitCond(COND_CODE[..1], 2, [], {A}, CallFn(2, 0, [1]));
    assert COND_CODE[..1] + [CallFn(2, 0, [1])] == COND_CODE[..2] && [] + [2] == [2] && {} + {A} == {A};
  }

  lemma CondLit()
    ensures GenS(LOOP, Lit("r"), Cond(COND_CODE[..2], 3, [2], {A})) == (Cond(COND_CODE[..3], 4, [2, 3], {A}), 3)
  {
    hide EmitTemp;
    EmitCond(COND_CODE[..2], 3, [2], {A}, CreateStatic(3, "r"));
    assert COND_CODE[..2] + [CreateStatic(3, "r")] == COND_CODE[..3] && [2] + [3] == [2, 3];
  }

  lemma CondGen()
    ensures GenCond(LOOP, StrCmp(true, Call(0, [SVar(A)]), Lit("r")), Cond([], 1, [], {}))
         == (Cond(COND_CODE[..4], 5, [2, 3], {A}), Tmp(4))
  {
    hide Emit, Fresh, EmitTemp, GenS;
    CondCall();
    CondLit();
    EmitCond(COND_CODE[..3], 4, [2, 3], {A}, StringEquals(4, 2, 3));
    EmitCond(COND_CODE[..3], 5, [2, 3], {A}, StringEquals(4, 2, 3));
    assert COND_CODE[..3] + [StringEquals(4, 2, 3)] == COND_CODE[..4];
  }

  lemma CondFlush()
    ensures ReleaseTemps(Cond(COND_CODE[..4], 5, [2, 3], {A})) == Cond(COND_CODE[..6], 5, [], {A})
  {
    hide Emit;
    var c := Cond(COND_CODE[..4], 5, [2, 3], {A});
    assert [2, 3][0..] == [2, 3] && [2, 3][..0] == [] && [2, 3][1..] == [3] && [3][1..] == [];
    EmitCond(COND_CODE[..4], 5, [2, 3], {A}, StringRelease(2));
    assert COND_CODE[..4] + [StringRelease(2)] == COND_CODE[..5];
    EmitCond(COND_CODE[..5], 5, [2, 3], {A}, StringRelease(3));
    assert COND_CODE[..5] + [StringRelease(3)] == COND_CODE[..6];
    assert EmitReleases(c, [2, 3]) == EmitReleases(Cond(COND_CODE[..5], 5, [2, 3], {A}), [3]);
    assert EmitReleases(c, [2, 3]) == Cond(COND_CODE[..6], 5, [2, 3], {A});
  }

  lemma LoopOpens(c1: CG)
    requires c1 == Line([CreateStatic(0, "a"), StoreStr(A, 0)], 1, [[], [A]], [], {})
    ensures OpenWhile(c1) == Cond([], 1, [], {})
  {
    var c := AddBlocks(c1, 3);
    assert c.blocks == [[CreateStatic(0, "a"), StoreStr(A, 0)], [], [], []];
    assert [CreateStatic(0, "a"), StoreStr(A, 0)] + [Br(1)] == ENTER_CODE;
    assert Emit(c, Br(1)).blocks == [ENTER_CODE, [], [], []];
  }

  lemma LoopEnters()
    ensures EnterWhile(Cond(COND_CODE[..4], 5, [2, 3], {A}), Tmp(4), 1).blocks == [ENTER_CODE, COND_CODE, [], []]
    ensures EnterWhile(Cond(COND_CODE[..4], 5, [2, 3], {A}), Tmp(4), 1).cur == 2
    ensures EnterWhile(Cond(COND_CODE[..4], 5, [2, 3], {A}), Tmp(4), 1).scopes == [[], [A]]
  {
    hide ReleaseTemps, Emit;
    CondFlush();
    EmitCond(COND_CODE[..6], 5, [], {A}, CondBr(Tmp(4), 2, 3));
    assert COND_CODE[..6] + [CondBr(Tmp(4), 2, 3)] == COND_CODE;
  }

  lemma LoopCode()
    ensures BlockStarts(Compile(LOOP), 1, 0, ENTER_CODE) && BlockStarts(Compile(LOOP), 1, 1, COND_CODE)
    ensures BlockStarts(Compile(LOOP), 1, 2, [Br(1)])
  {
    hide Compile, GenStmts, GenStmt, ReleaseTemps, GenBlock;
    var loop := While(StrCmp(true, Call(0, [SVar(A)]), Lit("r")), []);
    assert LOOP[1].body == [DeclStr(A, Lit("a"))] + [loop];
    MainBegins(LOOP, [loop]);
    var c1 := Line([CreateStatic(0, "a"), StoreStr(A, 0)], 1, [[], [A]], [], {});
    NextStmt(Compile(LOOP), 1, LOOP, [loop], c1);
    LoopBlocks(c1);
    BlocksStart(Compile(LOOP), 1, GenStmt(LOOP, loop, c1));
  }

  lemma BlocksStart(code: Code, fn: nat, c: CG)
    requires Ok(c) && Linked(code, fn, c) && c.blocks == [ENTER_CODE, COND_CODE, [Br(1)], []]
    ensures BlockStarts(code, fn, 0, ENTER_CODE) && BlockStarts(code, fn, 1, COND_CODE) && BlockStarts(code, fn, 2, [Br(1)])
  {
    assert c.blocks[0] <= code[fn][0] && c.blocks[1] <= code[fn][1] && c.blocks[2] <= code[fn][2];
  }

  lemma LoopBlocks(c1: CG)
    requires c1 == Line([CreateStatic(0, "a"), StoreStr(A, 0)], 1, [[], [A]], [], {})
    ensures GenStmt(LOOP, While(StrCmp(true, Call(0, [SVar(A)]), Lit("r")), []), c1).blocks == [ENTER_CODE, COND_CODE, [Br(1)], []]
  {
    hide GenCond, OpenWhile, EnterWhile, GenBlock;
    var s := While(StrCmp(true, Call(0, [SVar(A)]), Lit("r")), []);
    LoopOpens(c1);
    CondGen();
    LoopEnters();
    var ws := WhileStart(LOOP, s, c1);
    assert ws.blocks == [ENTER_CODE, COND_CODE, [], []] && ws.cur == 2;
    NoStatements(ws);
    assert [] + [Br(1)] == [Br(1)];
    assert JoinTo(GenBlock(LOOP, [], ws), 1).blocks == [ENTER_CODE, COND_CODE, [Br(1)], []];
    assert GenStmt(LOOP, s, c1) == GenWhile(LOOP, s, c1);
  }

  lemma NoStatements(c: CG)
    requires Ok(c) && !Terminated(c)
    ensures GenBlock(LOOP, [], c).blocks == c.blocks && GenBlock(LOOP, [], c).cur == c.cur
  {
    var c0 := PushScope(c);
    assert GenStmts(LOOP, [], c0) == c0;
    assert c0.scopes[|c0.scopes| - 1] == [];
    assert ReleaseVars(c0, []) == c0;
  }

  /** Main's frame in the loop. */
  function Around(bb: nat, pc: nat, prev: nat, sregs: map<Reg, Obj>, iregs: map<Reg, int>): Frame {
    Frame(1, bb, pc, prev, 0, [], sregs, iregs, map[A := 1], map[])
  }

  const H3 := Heap(map[1 := Cell(0, "a"), 2 := Cell(0, "r"), 3 := Cell(0, "r")], 4)

  lemma LoopBegins(code: Code)
    requires BlockStarts(code, 1, 0, ENTER_CODE)
    ensures Steps(code, Running(Entry(1, 0, []), [], Heap(map[], 1)), 3)
         == Running(Around(1, 0, 0, map[0 := 1], map[]), [], H1)
  {
    hide BlockStarts, Step;
    var s0 := Running(Entry(1, 0, []), [], Heap(map[], 1));
    var s1 := Running(Top(1, 1, 0, [], map[0 := 1], map[]), [], H1);
    var s2 := Running(Top(1, 2, 0, [], map[0 := 1], map[A := 1]), [], H1);
    StepBlock(code, 1, 0, ENTER_CODE, s0);
    StepBlock(code, 1, 0, ENTER_CODE, s1);
    StepBlock(code, 1, 0, ENTER_CODE, s2);
    ThreeSteps(code, s0, s1, s2, Running(Around(1, 0, 0, map[0 := 1], map[]), [], H1));
  }

  /** From the condition block to the callee. */
  lemma CondCalls(code: Code, prev: nat, sregs: map<Reg, Obj>, iregs: map<Reg, int>, h: Heap)
    requires BlockStarts(code, 1, 1, COND_CODE)
    ensures Steps(code, Running(Around(1, 0, prev, sregs, iregs), [], h), 2)
         == Running(Entry(0, 2, [1]), [Around(1, 2, prev, sregs[1 := 1], iregs)], h)
  {
    hide BlockStarts, Step;
    var s0 := Running(Around(1, 0, prev, sregs, iregs), [], h);
    var s1 := Running(Around(1, 1, prev, sregs[1 := 1], iregs), [], h);
    StepBlock(code, 1, 1, COND_CODE, s0);
    StepBlock(code, 1, 1, COND_CODE, s1);
    assert ArgObjs(s1.top, [1]) == [1];
    TwoSteps(code, s0, s1);
  }

  /** The comparison succeeds ... */
  lemma FirstTest(code: Code)
    requires BlockStarts(code, 1, 1, COND_CODE)
    ensures Steps(code, Running(Around(1, 2, 0, map[0 := 1, 1 := 1, 2 := 2], map[]), [], H2), 3)
         == Running(Around(1, 5, 0, map[0 := 1, 1 := 1, 2 := 2, 3 := 3], map[4 := 1]), [], HT)
  {
    hide BlockStarts, Step;
    var regs := map[0 := 1, 1 := 1, 2 := 2, 3 := 3];
    var h1 := Heap(map[1 := Cell(0, "a"), 2 := Cell(1, "r"), 3 := Cell(1, "r")], 4);
    var s0 := Running(Around(1, 2, 0, map[0 := 1, 1 := 1, 2 := 2], map[]), [], H2);
    var s1 := Running(Around(1, 3, 0, regs, map[]), [], h1);
    var s2 := Running(Around(1, 4, 0, regs, map[4 := 1]), [], h1);
    var s3 := Running(Around(1, 5, 0, regs, map[4 := 1]), [], HT);
    StepBlock(code, 1, 1, COND_CODE, s0);
    StepBlock(code, 1, 1, COND_CODE, s1);
    StepBlock(code, 1, 1, COND_CODE, s2);
    ThreeSteps(code, s0, s1, s2, s3);
  }

  const HT := Heap(map[1 := Cell(0, "a"), 2 := Cell(0, "r"), 3 := Cell(1, "r")], 4)

  /** ... and the body leads back to the condition. */
  lemma FirstBody(code: Code)
    requires BlockStarts(code, 1, 1, COND_CODE) && BlockStarts(code, 1, 2, [Br(1)])
    ensures Steps(code, Running(Around(1, 5, 0, map[0 := 1, 1 := 1, 2 := 2, 3 := 3], map[4 := 1]), [], HT), 3)
         == Running(Around(1, 0, 2, map[0 := 1, 1 := 1, 2 := 2, 3 := 3], map[4 := 1]), [], H3)
  {
    hide BlockStarts, Step;
    var regs := map[0 := 1, 1 := 1, 2 := 2, 3 := 3];
    var s3 := Running(Around(1, 5, 0, regs, map[4 := 1]), [], HT);
    var s4 := Running(Around(1, 6, 0, regs, map[4 := 1]), [], H3);
    var s5 := Running(Around(2, 0, 1, regs, map[4 := 1]), [], H3);
    StepBlock(code, 1, 1, COND_CODE, s3);
    StepBlock(code, 1, 1, COND_CODE, s4);
    StepBlock(code, 1, 2, [Br(1)], s5);
    ThreeSteps(code, s3, s4, s5, Running(Around(1, 0, 2, regs, map[4 := 1]), [], H3));
  }

  /** On the second turn the string is moved again, and released again. */
  lemma MovedOnEveryTurn()
    ensures Steps(Compile(LOOP), Running(Entry(1, 0, []), [], Heap(map[], 1)), 27) == Stuck
  {
    hide Compile, Steps, Starts, BlockStarts, Step;
    var code := Compile(LOOP);
    LoopCode();
    TakeCode(LOOP);
    var s0 := Running(Entry(1, 0, []), [], Heap(map[], 1));
    LoopBegins(code);
    CondCalls(code, 0, map[0 := 1], map[], H1);
    StepsAdd(code, s0, 3, 2);
    var back := Around(1, 2, 0, map[0 := 1, 1 := 1], map[]);
    TakeReturns(code, 2, back);
    StepsAdd(code, s0, 5, 7);
    FirstTest(code);
    StepsAdd(code, s0, 12, 3);
    FirstBody(code);
    StepsAdd(code, s0, 15, 3);
    LastTurn(code, Steps(code, s0, 18));
    StepsAdd(code, s0, 18, 9);
  }

  lemma LastTurn(code: Code, st: State)
    requires BlockStarts(code, 1, 1, COND_CODE) && Starts(code, 0, TAKE_CODE)
    requires st == Running(Around(1, 0, 2, map[0 := 1, 1 := 1, 2 := 2, 3 := 3], map[4 := 1]), [], H3)
    ensures Steps(code, st, 9) == Stuck
  {
    hide Steps, Starts, BlockStarts;
    var regs := map[0 := 1, 1 := 1, 2 := 2, 3 := 3];
    CondCalls(code, 2, regs, map[4 := 1], H3);
    RunTake(code, 2, 1, [Around(1, 2, 2, regs[1 := 1], map[4 := 1])], H3);
    StepsAdd(code, st, 2, 7);
  }

  // ---- A plain copy: own string a = "a"; string b = "b"; b = a; ----

  const COPY: Program := [TAKE, Fun([], [DeclStr(A, Lit("a")), DeclStr(B, Lit("b")), AssignStr(B, SVar(A))])]
  const COPY_CODE: seq<Instr> := [
    CreateStatic(0, "a"), StoreStr(A, 0), CreateStatic(1, "b"), StoreStr(B, 1),
    LoadStr(2, A), LoadStr(3, B), StringRelease(3), StoreStr(B, 2),
    LoadStr(4, A), StringRelease(4), LoadStr(5, B), StringRelease(5)]

  /** x = y; as a plain copy. */
  lemma CopyLine(p: Program, x: Var, y: Var, code: seq<Instr>, next: Reg, scopes: seq<seq<Var>>, moved: set<Var>)
    requires scopes != [] && !IsMove(x, SVar(y))
    ensures GenStmt(p, AssignStr(x, SVar(y)), Line(code, next, scopes, [], moved))
         == Line(code + [LoadStr(next, y)] + [LoadStr(next + 1, x)] + [StringRelease(next + 1)] + [StoreStr(x, next)],
                 next + 2, scopes, [], moved)
  {
    hide GenS, Emit, Fresh;
    ReadLine(p, y, code, next, scopes, [], moved);
    var code1 := code + [LoadStr(next, y)];
    EmitLine(code1, next + 1, scopes, [], moved, LoadStr(next + 1, x));
    EmitLine(code1, next + 2, scopes, [], moved, LoadStr(next + 1, x));
    var code2 := code1 + [LoadStr(next + 1, x)];
    EmitLine(code2, next + 2, scopes, [], moved, StringRelease(next + 1));
    assert Without([], next) == [];
    EmitLine(code2 + [StringRelease(next + 1)], next + 2, scopes, [], moved, StoreStr(x, next));
    assert GenStmt(p, AssignStr(x, SVar(y)), Line(code, next, scopes, [], moved))
        == GenAssign(p, x, SVar(y), Line(code, next, scopes, [], moved));
  }

  lemma CopyBody()
    ensures GenStmts(COPY, COPY[1].body, Line([], 0, [[], []], [], {})) == Line(COPY_CODE[..8], 4, [[], [A, B]], [], {})
  {
    hide GenStmt, ReleaseTemps;
    var da, db, assign := DeclStr(A, Lit("a")), DeclStr(B, Lit("b")), AssignStr(B, SVar(A));
    var c0 := Line([], 0, [[], []], [], {});
    var c1 := Line([CreateStatic(0, "a"), StoreStr(A, 0)], 1, [[], [A]], [], {});
    var c2 := Line(COPY_CODE[..4], 2, [[], [A, B]], [], {});
    var c3 := Line(COPY_CODE[..8], 4, [[], [A, B]], [], {});
    MainDeclares(COPY);
    CopyDeclares();
    CopyAssigns();
    assert COPY[1].body == [da, db, assign] && [da, db, assign][1..] == [db, assign];
    assert [db, assign][1..] == [assign] && [assign][1..] == [];
    assert GenStmts(COPY, [da, db, assign], c0) == GenStmts(COPY, [db, assign], c1);
    assert GenStmts(COPY, [db, assign], c1) == GenStmts(COPY, [assign], c2);
    assert GenStmts(COPY, [assign], c2) == GenStmts(COPY, [], c3);
    assert GenStmts(COPY, [], c3) == c3;
  }

  lemma CopyDeclares()
    ensures
      var c1 := Line([CreateStatic(0, "a"), StoreStr(A, 0)], 1, [[], [A]], [], {});
      ReleaseTemps(GenStmt(COPY, DeclStr(B, Lit("b")), c1)) == Line(COPY_CODE[..4], 2, [[], [A, B]], [], {})
  {
    hide GenStmt, ReleaseTemps;
    DeclLine(COPY, B, "b", [CreateStatic(0, "a"), StoreStr(A, 0)], 1, [[]], [A], {});
    var none: seq<Var> := [];
    assert [none] + [[A]] == [none, [A]] && [A] + [B] == [A, B] && [none] + [[A, B]] == [none, [A, B]];
    assert [CreateStatic(0, "a"), StoreStr(A, 0)] + [CreateStatic(1, "b")] + [StoreStr(B, 1)] == COPY_CODE[..4];
    FlushLine(COPY_CODE[..4], 2, [[], [A, B]], [], {});
  }

  lemma CopyAssigns()
    ensures ReleaseTemps(GenStmt(COPY, AssignStr(B, SVar(A)), Line(COPY_CODE[..4], 2, [[], [A, B]], [], {})))
         == Line(COPY_CODE[..8], 4, [[], [A, B]], [], {})
  {
    hide GenStmt, ReleaseTemps;
    CopyLine(COPY, B, A, COPY_CODE[..4], 2, [[], [A, B]], {});
    assert COPY_CODE[..4] + [LoadStr(2, A)] + [LoadStr(3, B)] + [StringRelease(3)] + [StoreStr(B, 2)] == COPY_CODE[..8];
    FlushLine(COPY_CODE[..8], 4, [[], [A, B]], [], {});
  }

  lemma CopyCode()
    ensures Starts(Compile(COPY), 1, COPY_CODE)
  {
    hide Compile, GenStmts, ReleaseTemps, ReleaseVars;
    var code := Compile(COPY);
    var f := COPY[1];
    MainPrologue(f);
    CopyBody();
    CopyReleases();
    var c2 := Line(COPY_CODE[..8], 4, [[], [A, B]], [], {});
    assert COPY_CODE[..8][7] == StoreStr(B, 2);
    assert c2.scopes[|c2.scopes| - 1] == [A, B] && !Terminated(c2);
    assert ReleaseVars(c2, [A, B]) == Line(COPY_CODE, 6, [[], [A, B]], [], {});
    assert GenBody(COPY, f) == PopScope(ReleaseVars(c2, [A, B]));
    assert Prefixes(GenBody(COPY, f).blocks, GenFunction(COPY, f).blocks);
    LinkedBefore(code, 1, GenBody(COPY, f), GenFunction(COPY, f));
    LineStarts(code, 1, GenBody(COPY, f), COPY_CODE);
  }

  lemma CopyReleases()
    ensures ReleaseVars(Line(COPY_CODE[..8], 4, [[], [A, B]], [], {}), [A, B]) == Line(COPY_CODE, 6, [[], [A, B]], [], {})
  {
    hide ReleaseVars;
    var scopes := [[], [A, B]];
    ReleaseLine(COPY_CODE[..8], 4, scopes, {}, A, [B]);
    assert [A] + [B] == [A, B] && COPY_CODE[..8] + [LoadStr(4, A)] + [StringRelease(4)] == COPY_CODE[..10];
    ReleaseLine(COPY_CODE[..10], 5, scopes, {}, B, []);
    assert [B] + [] == [B] && COPY_CODE[..10] + [LoadStr(5, B)] + [StringRelease(5)] == COPY_CODE;
    ReleaseLine(COPY_CODE, 6, scopes, {}, A, []);
  }

  /** Counts of the two strings. */
  function Counts(a: int, b: int): Heap {
    Heap(map[1 := Cell(a, "a"), 2 := Cell(b, "b")], 3)
  }

  /** Main's frame after n registers were written. */
  function Copying(pc: nat, n: nat, b: Obj, heap: Heap): State
    requires 2 <= n <= 6
  {
    var two := map[0 := 1, 1 := 2];
    var regs := if n == 2 then two else if n == 3 then two[2 := 1] else if n == 4 then two[2 := 1][3 := 2]
                else if n == 5 then two[2 := 1][3 := 2][4 := 1] else two[2 := 1][3 := 2][4 := 1][5 := 1];
    Running(Top(1, pc, 0, [], regs, map[A := 1, B := b]), [], heap)
  }

  lemma CopyDeclared(code: Code)
    requires Starts(code, 1, COPY_CODE)
    ensures Steps(code, Running(Entry(1, 0, []), [], Heap(map[], 1)), 4) == Copying(4, 2, 2, Counts(1, 1))
  {
    hide Starts, Step;
    var s0 := Running(Entry(1, 0, []), [], Heap(map[], 1));
    var s1 := Running(Top(1, 1, 0, [], map[0 := 1], map[]), [], H1);
    var s2 := Running(Top(1, 2, 0, [], map[0 := 1], map[A := 1]), [], H1);
    var s3 := Running(Top(1, 3, 0, [], map[0 := 1, 1 := 2], map[A := 1]), [], Counts(1, 1));
    StepLine(code, 1, COPY_CODE, s0);
    StepLine(code, 1, COPY_CODE, s1);
    StepLine(code, 1, COPY_CODE, s2);
    StepLine(code, 1, COPY_CODE, s3);
    FourSteps(code, s0, s1, s2, s3, Copying(4, 2, 2, Counts(1, 1)));
  }

  /** The assignment releases "b" and shares "a" without counting it. */
  lemma CopyShares(code: Code)
    requires Starts(code, 1, COPY_CODE)
    ensures Steps(code, Copying(4, 2, 2, Counts(1, 1)), 4) == Copying(8, 4, 1, Counts(1, 0))
  {
    hide Starts, Step;
    var s4, s5, s6 := Copying(4, 2, 2, Counts(1, 1)), Copying(5, 3, 2, Counts(1, 1)), Copying(6, 4, 2, Counts(1, 1));
    var s7 := Copying(7, 4, 2, Counts(1, 0));
    StepLine(code, 1, COPY_CODE, s4);
    StepLine(code, 1, COPY_CODE, s5);
    StepLine(code, 1, COPY_CODE, s6);
    StepLine(code, 1, COPY_CODE, s7);
    FourSteps(code, s4, s5, s6, s7, Copying(8, 4, 1, Counts(1, 0)));
  }

  /** On the way out both variables release "a". */
  lemma CopyEnds(code: Code)
    requires Starts(code, 1, COPY_CODE)
    ensures Steps(code, Copying(8, 4, 1, Counts(1, 0)), 4) == Stuck
  {
    hide Starts, Step;
    var s8, s9 := Copying(8, 4, 1, Counts(1, 0)), Copying(9, 5, 1, Counts(1, 0));
    var s10, s11 := Copying(10, 5, 1, Counts(0, 0)), Copying(11, 6, 1, Counts(0, 0));
    StepLine(code, 1, COPY_CODE, s8);
    StepLine(code, 1, COPY_CODE, s9);
    StepLine(code, 1, COPY_CODE, s10);
    StepLine(code, 1, COPY_CODE, s11);
    FourSteps(code, s8, s9, s10, s11, Stuck);
  }

  /** The emitted program releases a string whose count is already zero. */
  lemma PlainCopyIsReleasedTwice()
    ensures Steps(Compile(COPY), Running(Entry(1, 0, []), [], Heap(map[], 1)), 12) == Stuck
  {
    hide Compile, Steps, Starts, Step, Copying;
    var code, s0 := Compile(COPY), Running(Entry(1, 0, []), [], Heap(map[], 1));
    CopyCode();
    CopyDeclared(code);
    CopyShares(code);
    CopyEnds(code);
    StepsAdd(code, s0, 4, 4);
    StepsAdd(code, s0, 8, 4);
  }
}
