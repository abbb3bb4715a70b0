/**
 Programs without own variables, checked by their text alone. They are legal, so everything that
 is proved of legal programs holds of them; this shows what legality does and does not ask for.
 */
module PlainPrograms {
  import opened Source
  import opened Machine
  import opened Lowering
  import opened Ownership
  import opened Legality
  import opened SimScopes

  // ---- The text ----

  predicate PlainI(e: IExpr, ints: set<Var>)
    decreases e
  {
    match e
    case IntLit(_) => true
    case IVar(x) => x in ints
    case Arith(_, l, r) => PlainI(l, ints) && PlainI(r, ints)
  }

  /** Declared variables, and calls with the right number of arguments. */
  predicate PlainS(p: Program, e: SExpr, vars: set<Var>)
    decreases e
  {
    match e
    case Lit(_) => true
    case SVar(x) => x in vars && !x.own
    case Concat(l, r) => PlainS(p, l, vars) && PlainS(p, r, vars)
    case Call(f, args) =>
      && f < |p| && |args| == |p[f].params| && (forall x :: x in p[f].params ==> !x.own)
      && forall k :: 0 <= k < |args| ==> PlainS(p, args[k], vars)
  }

  predicate PlainB(p: Program, e: BExpr, vars: set<Var>, ints: set<Var>)
    decreases e
  {
    match e
    case Truthy(i) => PlainI(i, ints)
    case Cmp(_, l, r) => PlainI(l, ints) && PlainI(r, ints)
    case StrCmp(_, l, r) => PlainS(p, l, vars) && PlainS(p, r, vars)
    case Logic(_, l, r) => PlainB(p, l, vars, ints) && PlainB(p, r, vars, ints)
  }

  /**
   `locals`: the string variables declared so far; `params`: the parameters; `ints`: the integer
   variables; `outside`: the locals at the start of the innermost loop, if any.
   */
  datatype Scope = Scope(locals: seq<Var>, params: set<Var>, ints: set<Var>, inLoop: bool, outside: seq<Var>)
  {
    function Vars(): set<Var> {
      (set x | x in locals) + params
    }
    function Loop(): Scope {
      this.(inLoop := true, outside := locals)
    }
    function After(s: Stmt): Scope {
      if s.DeclStr? then this.(locals := locals + [s.x]) else if s.DeclInt? then this.(ints := ints + {s.ix}) else this
    }
  }

  /**
   A string local is initialised, a parameter is not assigned to, and an assigned value is no
   variable. With `exact`, jumps leave no scope with string locals.
   */
  predicate PlainStmt(p: Program, s: Stmt, c: Scope, exact: bool)
    decreases s
  {
    match s
    case DeclStr(x, e) => !x.own && x !in c.Vars() && PlainS(p, e, c.Vars())
    case AssignStr(x, e) => !x.own && x in c.locals && x !in c.params && !e.SVar? && PlainS(p, e, c.Vars())
    case DeclEmpty(_) => false
    case DeclInt(_, e) => PlainI(e, c.ints)
    case AssignInt(x, e) => x in c.ints && PlainI(e, c.ints)
    case Eval(e) => PlainS(p, e, c.Vars())
    case Return(e) => PlainS(p, e, c.Vars())
    case Break => c.inLoop && (exact ==> c.locals == c.outside)
    case Continue => c.inLoop && (exact ==> c.locals == c.outside)
    case Block(body) => PlainStmts(p, body, c, exact)
    case If(b, thn, els) => PlainB(p, b, c.Vars(), c.ints) && PlainStmts(p, thn, c, exact) && PlainStmts(p, els, c, exact)
    case While(b, body) => PlainB(p, b, c.Vars(), c.ints) && PlainStmts(p, body, c.Loop(), exact)
    case ForRange(x, lo, hi, body) =>
      PlainI(lo, c.ints) && PlainI(hi, c.ints) && PlainStmts(p, body, c.Loop().(ints := c.ints + {x}), exact)
    case Forever(body) => PlainStmts(p, body, c.Loop(), exact)
  }

  predicate PlainStmts(p: Program, ss: seq<Stmt>, c: Scope, exact: bool)
    decreases ss
  {
    ss != [] ==> PlainStmt(p, ss[0], c, exact) && PlainStmts(p, ss[1..], c.After(ss[0]), exact)
  }

  predicate PlainFun(p: Program, f: Fun, exact: bool) {
    && (forall i, j :: 0 <= i < j < |f.params| ==> f.params[i] != f.params[j])
    && (forall x :: x in f.params ==> !x.own)
    && PlainStmts(p, f.body, Scope([], set x | x in f.params, {}, false, []), exact)
  }

  predicate PlainProgram(p: Program, exact: bool) {
    forall k :: 0 <= k < |p| ==> PlainFun(p, p[k], exact)
  }

  // ---- Nothing is moved ----

  lemma {:induction false} NoOwnMoves(args: seq<SExpr>, params: seq<Var>)
    requires forall x :: x in params ==> !x.own
    ensures OwnMoves(args, params) == {}
    decreases |args|
  {
    if args != [] && params != [] {
      assert params[0] in params;
      NoOwnMoves(args[1..], params[1..]);
    }
  }

  lemma {:induction false} PlainMovesNothing(p: Program, e: SExpr, vars: set<Var>)
    requires PlainS(p, e, vars)
    ensures MovesS(p, e) == {}
    decreases e
  {
    match e
    case Lit(_) =>
    case SVar(_) =>
    case Concat(l, r) =>
      PlainMovesNothing(p, l, vars);
      PlainMovesNothing(p, r, vars);
    case Call(f, args) =>
      ArgsMoveNothing(p, args, vars);
      NoOwnMoves(args, p[f].params);
  }

  lemma {:induction false} ArgsMoveNothing(p: Program, es: seq<SExpr>, vars: set<Var>)
    requires forall k :: 0 <= k < |es| ==> PlainS(p, es[k], vars)
    ensures MovesArgs(p, es) == {}
    decreases es
  {
    if es != [] {
      ArgsMoveNothing(p, es[..|es| - 1], vars);
      PlainMovesNothing(p, es[|es| - 1], vars);
    }
  }

  lemma {:induction false} ConditionMovesNothing(p: Program, e: BExpr, vars: set<Var>, ints: set<Var>)
    requires PlainB(p, e, vars, ints)
    ensures MovesB(p, e) == {}
    decreases e
  {
    match e
    case Truthy(_) =>
    case Cmp(_, _, _) =>
    case StrCmp(_, l, r) =>
      PlainMovesNothing(p, l, vars);
      PlainMovesNothing(p, r, vars);
    case Logic(_, l, r) =>
      ConditionMovesNothing(p, l, vars, ints);
      ConditionMovesNothing(p, r, vars, ints);
  }

  // ---- Expressions are legal ----

  /** The static context agrees with the scope of the text. */
  predicate Matches(cg: CG, c: Ctx, t: Scope) {
    && Flat(cg.scopes) == t.locals && c.borrowed == t.params && c.ints == t.ints && c.outside == t.outside
    && (cg.loops.InLoop? <==> t.inLoop) && cg.moved == {}
  }

  lemma {:induction false} PlainIntIsLegal(e: IExpr, c: Ctx)
    requires PlainI(e, c.ints)
    ensures LegalI(e, c)
    decreases e
  {
    if e.Arith? {
      PlainIntIsLegal(e.il, c);
      PlainIntIsLegal(e.ir, c);
    }
  }

  lemma {:induction false} PlainStringIsLegal(p: Program, e: SExpr, c: Ctx, vars: set<Var>)
    requires PlainS(p, e, vars) && c.callable == Indices(|p|) && forall x :: x in vars ==> x in c.owned || x in c.borrowed
    ensures LegalS(p, e, {}, c)
    decreases e
  {
    match e
    case Lit(_) =>
    case SVar(_) =>
    case Concat(l, r) =>
      PlainMovesNothing(p, l, vars);
      PlainMovesNothing(p, r, vars);
      PlainStringIsLegal(p, l, c, vars);
      PlainStringIsLegal(p, r, c, vars);
      assert {} + MovesS(p, l) == {};
    case Call(f, args) =>
      ArgsMoveNothing(p, args, vars);
      PlainArgsAreLegal(p, args, c, vars);
      assert forall k :: 0 <= k < |args| ==> p[f].params[k] in p[f].params;
  }

  lemma {:induction false} PlainArgsAreLegal(p: Program, es: seq<SExpr>, c: Ctx, vars: set<Var>)
    requires forall k :: 0 <= k < |es| ==> PlainS(p, es[k], vars)
    requires c.callable == Indices(|p|) && forall x :: x in vars ==> x in c.owned || x in c.borrowed
    ensures LegalArgs(p, es, {}, c)
    decreases es
  {
    if es != [] {
      ArgsMoveNothing(p, es[..|es| - 1], vars);
      PlainArgsAreLegal(p, es[..|es| - 1], c, vars);
      PlainStringIsLegal(p, es[|es| - 1], c, vars);
      assert {} + MovesArgs(p, es[..|es| - 1]) == {};
    }
  }

  lemma {:induction false} PlainConditionIsLegal(p: Program, e: BExpr, c: Ctx, vars: set<Var>)
    requires PlainB(p, e, vars, c.ints) && c.callable == Indices(|p|) && forall x :: x in vars ==> x in c.owned || x in c.borrowed
    ensures LegalB(p, e, {}, c)
    decreases e
  {
    ConditionMovesNothing(p, e, vars, c.ints);
    match e
    case Truthy(i) => PlainIntIsLegal(i, c);
    case Cmp(_, l, r) =>
      PlainIntIsLegal(l, c);
      PlainIntIsLegal(r, c);
    case StrCmp(_, l, r) =>
      PlainMovesNothing(p, l, vars);
      PlainStringIsLegal(p, l, c, vars);
      PlainStringIsLegal(p, r, c, vars);
    case Logic(_, l, r) =>
      ConditionMovesNothing(p, l, vars, c.ints);
      ConditionMovesNothing(p, r, vars, c.ints);
      PlainConditionIsLegal(p, l, c, vars);
      PlainConditionIsLegal(p, r, c, vars);
  }

  // ---- Statements are legal ----

  lemma VarsReadable(cg: CG, c: Ctx, t: Scope)
    requires Matches(cg, c, t)
    ensures forall x :: x in t.Vars() ==> x in At(cg, c).owned || x in At(cg, c).borrowed
  {
  }

  lemma {:induction false} StmtIsLegal(p: Program, s: Stmt, cg: CG, c: Ctx, t: Scope)
    requires Ok(cg) && cg.scopes != [] && Matches(cg, c, t) && c.callable == Indices(|p|) && PlainStmt(p, s, t, c.exact)
    ensures LegalStmt(p, s, cg, c)
    ensures GenStmt(p, s, cg).moved == {} && Flat(GenStmt(p, s, cg).scopes) == t.After(s).locals
    decreases s, 1
  {
    hide GenS, GenI, GenBlock, GenIf, GenWhile, GenRange, GenForever, LegalBlock, LegalIf, LegalWhile, LegalRange, LegalS, LegalI,
      MovesS, Flat, Spares, Prefixes, Touches, PlainS, PlainB, PlainI, PlainStmts, Indices, GenReturn, GenDecl, GenAssign;
    VarsReadable(cg, c, t);
    match s
    case DeclStr(x, e) => DeclIsLegal(p, x, e, cg, c, t);
    case AssignStr(x, e) =>
      PlainMovesNothing(p, e, t.Vars());
      PlainStringIsLegal(p, e, At(cg, c), t.Vars());
      AssignMoves(p, x, e, cg);
    case DeclInt(_, e) =>
      PlainIntIsLegal(e, c);
      GenIMoves(e, cg);
    case AssignInt(_, e) =>
      PlainIntIsLegal(e, c);
      GenIMoves(e, cg);
    case Eval(e) =>
      PlainMovesNothing(p, e, t.Vars());
      PlainStringIsLegal(p, e, At(cg, c), t.Vars());
      GenSMoves(p, e, cg);
    case Return(e) =>
      PlainMovesNothing(p, e, t.Vars());
      PlainStringIsLegal(p, e, At(cg, c), t.Vars());
      ReturnMoves(p, e, cg);
    case Break =>
    case Continue =>
    case Block(body) => BlockIsLegal(p, body, cg, c, t);
    case If(_, _, _) => IfIsLegal(p, s, cg, c, t);
    case While(_, _) => WhileIsLegal(p, s, cg, c, t);
    case ForRange(_, _, _, _) => RangeIsLegal(p, s, cg, c, t);
    case Forever(_) => ForeverIsLegal(p, s, cg, c, t);
  }

  lemma DeclIsLegal(p: Program, x: Var, e: SExpr, cg: CG, c: Ctx, t: Scope)
    requires Ok(cg) && cg.scopes != [] && Matches(cg, c, t) && c.callable == Indices(|p|) && PlainStmt(p, DeclStr(x, e), t, c.exact)
    ensures LegalStmt(p, DeclStr(x, e), cg, c)
    ensures GenStmt(p, DeclStr(x, e), cg).moved == {} && Flat(GenStmt(p, DeclStr(x, e), cg).scopes) == t.locals + [x]
  {
    hide GenDecl, LegalS, MovesS, Flat, PlainS, Indices, Spares, Touches;
    VarsReadable(cg, c, t);
    PlainMovesNothing(p, e, t.Vars());
    PlainStringIsLegal(p, e, At(cg, c), t.Vars());
    DeclMoves(p, x, e, cg);
    FlatDeclare(cg, x);
  }

  lemma DeclMoves(p: Program, x: Var, e: SExpr, cg: CG)
    requires Ok(cg) && cg.scopes != [] && cg.moved == {} && MovesS(p, e) == {} && !x.own
    ensures GenDecl(p, x, e, cg).moved == {}
  {
    hide GenS, Spares, Touches;
    GenSMoves(p, e, Declare(cg, x));
  }

  lemma AssignMoves(p: Program, x: Var, e: SExpr, cg: CG)
    requires Ok(cg) && cg.scopes != [] && cg.moved == {} && MovesS(p, e) == {} && !e.SVar?
    ensures GenAssign(p, x, e, cg).moved == {}
  {
    hide GenS, Spares, Touches;
    GenSMoves(p, e, cg);
  }

  lemma ReturnMoves(p: Program, e: SExpr, cg: CG)
    requires Ok(cg) && cg.moved == {} && MovesS(p, e) == {}
    ensures GenReturn(p, e, cg).moved == {}
  {
    hide GenS, Spares, Touches, ReleaseVars, ReleaseOrder;
    GenSMoves(p, e, cg);
  }

  lemma {:induction false} IfIsLegal(p: Program, s: Stmt, cg: CG, c: Ctx, t: Scope)
    requires Ok(cg) && cg.scopes != [] && s.If? && Matches(cg, c, t) && c.callable == Indices(|p|) && PlainStmt(p, s, t, c.exact)
    ensures LegalIf(p, s, cg, c) && GenIf(p, s, cg).moved == {} && GenIf(p, s, cg).scopes == cg.scopes
    decreases s, 0
  {
    hide GenBlock, GenCond, LegalBlock, LegalB, MovesB, Flat, PlainB, PlainStmts, Indices, Spares, Touches;
    VarsReadable(cg, c, t);
    ConditionMovesNothing(p, s.cond, t.Vars(), t.ints);
    PlainConditionIsLegal(p, s.cond, At(cg, c), t.Vars());
    GenCondMoves(p, s.cond, cg);
    BlockIsLegal(p, s.thn, ThenStart(p, s, cg), c, t);
    BlockIsLegal(p, s.els, ElseStart(p, s, cg), c, t);
  }

  lemma {:induction false} WhileIsLegal(p: Program, s: Stmt, cg: CG, c: Ctx, t: Scope)
    requires Ok(cg) && cg.scopes != [] && s.While? && Matches(cg, c, t) && c.callable == Indices(|p|) && PlainStmt(p, s, t, c.exact)
    ensures LegalWhile(p, s, cg, c) && GenWhile(p, s, cg).moved == {} && GenWhile(p, s, cg).scopes == cg.scopes
    decreases s, 0
  {
    hide GenBlock, GenCond, OpenWhile, LegalBlock, LegalB, MovesB, Flat, PlainB, PlainStmts, Indices, Spares, Touches;
    VarsReadable(cg, c, t);
    ConditionMovesNothing(p, s.cond, t.Vars(), t.ints);
    PlainConditionIsLegal(p, s.cond, At(cg, c), t.Vars());
    GenCondMoves(p, s.cond, OpenWhile(cg));
    BlockIsLegal(p, s.body, WhileStart(p, s, cg), Inside(cg, c), t.Loop());
  }

  lemma {:induction false} RangeIsLegal(p: Program, s: Stmt, cg: CG, c: Ctx, t: Scope)
    requires Ok(cg) && cg.scopes != [] && s.ForRange? && Matches(cg, c, t) && c.callable == Indices(|p|) && PlainStmt(p, s, t, c.exact)
    ensures LegalRange(p, s, cg, c) && GenRange(p, s, cg).moved == {} && GenRange(p, s, cg).scopes == cg.scopes
    decreases s, 0
  {
    hide GenBlock, LegalBlock, Flat, PlainI, PlainStmts, Indices, Spares, Touches;
    PlainIntIsLegal(s.lo, c);
    PlainIntIsLegal(s.hi, c);
    BlockIsLegal(p, s.body, RangeStart(s, cg), Inside(cg, Counting(s, c)), t.Loop().(ints := t.ints + {s.ix}));
  }

  lemma {:induction false} ForeverIsLegal(p: Program, s: Stmt, cg: CG, c: Ctx, t: Scope)
    requires Ok(cg) && cg.scopes != [] && s.Forever? && Matches(cg, c, t) && c.callable == Indices(|p|) && PlainStmt(p, s, t, c.exact)
    ensures LegalBlock(p, s.body, EnterForever(cg), Inside(cg, c))
    ensures GenForever(p, s, cg).moved == {} && GenForever(p, s, cg).scopes == cg.scopes
    decreases s, 0
  {
    hide GenBlock, LegalBlock, Flat, PlainStmts, Indices, Spares, Touches;
    BlockIsLegal(p, s.body, EnterForever(cg), Inside(cg, c), t.Loop());
  }

  lemma {:induction false} BlockIsLegal(p: Program, ss: seq<Stmt>, cg: CG, c: Ctx, t: Scope)
    requires Ok(cg) && Matches(cg, c, t) && c.callable == Indices(|p|) && PlainStmts(p, ss, t, c.exact)
    ensures LegalBlock(p, ss, cg, c) && GenBlock(p, ss, cg).moved == {} && GenBlock(p, ss, cg).scopes == cg.scopes
    decreases ss, 1
  {
    hide GenStmts, LegalStmts, Flat, PlainStmts, Indices, ReleaseVars;
    FlatPush(cg.scopes);
    StmtsAreLegal(p, ss, PushScope(cg), c, t);
  }

  lemma {:induction false} StmtsAreLegal(p: Program, ss: seq<Stmt>, cg: CG, c: Ctx, t: Scope)
    requires Ok(cg) && cg.scopes != [] && Matches(cg, c, t) && c.callable == Indices(|p|) && PlainStmts(p, ss, t, c.exact)
    ensures LegalStmts(p, ss, cg, c) && GenStmts(p, ss, cg).moved == {}
    decreases ss, 0
  {
    hide GenStmt, LegalStmt, PlainStmt, Flat, Indices, ReleaseTemps;
    if ss != [] && !Terminated(cg) {
      StmtIsLegal(p, ss[0], cg, c, t);
      StmtsAreLegal(p, ss[1..], ReleaseTemps(GenStmt(p, ss[0], cg)), After(ss[0], c), t.After(ss[0]));
    }
  }

  lemma {:induction false} NoOwnParams(xs: seq<Var>)
    requires forall x :: x in xs ==> !x.own
    ensures OwnParams(xs) == []
    decreases |xs|
  {
    if xs != [] {
      assert xs[0] in xs;
      NoOwnParams(xs[1..]);
    }
  }

  lemma {:induction false} StoresMoveNothing(cg: CG, xs: seq<Var>, k: nat)
    requires Ok(cg)
    ensures StoreArgs(cg, xs, k).moved == cg.moved
    decreases xs
  {
    if xs != [] { StoresMoveNothing(Emit(cg, StoreArg(xs[0], k)), xs[1..], k + 1); }
  }

  lemma FunIsLegal(p: Program, f: Fun, exact: bool)
    requires PlainFun(p, f, exact)
    ensures LegalFun(p, f, exact, Indices(|p|))
  {
    hide GenBlock, LegalBlock, PlainStmts, Indices, StoreArgs;
    var cg, c := Prologue(f), FunCtx(f, exact, Indices(|p|));
    NoOwnParams(f.params);
    StoresMoveNothing(EMPTY, f.params, 0);
    assert Flat(cg.scopes) == [] by { assert cg.scopes[..0] == []; }
    assert Borrowed(f.params) == set x | x in f.params;
    BlockIsLegal(p, f.body, cg, c, Scope([], set x | x in f.params, {}, false, []));
  }

  /** A program without own variables that passes this check is legal, so all that is proved of legal programs holds of it. */
  lemma PlainIsLegal(p: Program, exact: bool)
    requires PlainProgram(p, exact)
    ensures LegalProgram(p, exact)
  {
    hide PlainFun, LegalFun;
    forall k | k in Indices(|p|) ensures LegalFun(p, p[k], exact, Indices(|p|)) { FunIsLegal(p, p[k], exact); }
  }
}
