/**
 The programs the ownership proofs speak about: what semantic analysis guarantees before
 code generation (declared and unmoved variables, no move inside a loop) and the emission
 cases that keep the reference counts right. With `exact` the conditions under which
 nothing leaks are required as well.
 */
module Legality {
  import opened Source
  import opened Machine
  import opened Lowering
  import opened Ownership

  // ---- Moves of an expression ----

  function MovesS(p: Program, e: SExpr): set<Var>
    decreases e
  {
    match e
    case Lit(_) => {}
    case SVar(_) => {}
    case Concat(l, r) => MovesS(p, l) + MovesS(p, r)
    case Call(f, args) => MovesArgs(p, args) + OwnMoves(args, ParamsOf(p, f))
  }

  function MovesArgs(p: Program, es: seq<SExpr>): set<Var>
    decreases es
  {
    if es == [] then {} else MovesArgs(p, es[..|es| - 1]) + MovesS(p, es[|es| - 1])
  }

  function MovesB(p: Program, e: BExpr): set<Var>
    decreases e
  {
    match e
    case Truthy(_) => {}
    case Cmp(_, _, _) => {}
    case StrCmp(_, l, r) => MovesS(p, l) + MovesS(p, r)
    case Logic(_, l, r) => MovesB(p, l) + MovesB(p, r)
  }

  // ---- Static context ----

  /**
   `owned`: tracked string variables in scope; `borrowed`: plain string parameters;
   `ints`: initialised integer variables; `exact`: whether leaks are excluded too;
   `outside`: the tracked variables at the start of the innermost loop; `callable`: the functions
   that may be called.
   */
  datatype Ctx = Ctx(owned: seq<Var>, borrowed: set<Var>, ints: set<Var>, exact: bool, outside: seq<Var>,
                     callable: set<nat>)

  predicate Readable(c: Ctx, moved: set<Var>, x: Var) {
    (x in c.owned && x !in moved) || x in c.borrowed
  }

  predicate LegalI(e: IExpr, c: Ctx) {
    match e
    case IntLit(_) => true
    case IVar(x) => x in c.ints
    case Arith(_, l, r) => LegalI(l, c) && LegalI(r, c)
  }

  /** A variable read into `e` and still pending is not moved away by `later`. */
  predicate StaysPut(e: SExpr, later: set<Var>) {
    e.SVar? ==> e.x !in later
  }

  predicate LegalS(p: Program, e: SExpr, moved: set<Var>, c: Ctx)
    decreases e
  {
    match e
    case Lit(_) => true
    case SVar(x) => Readable(c, moved, x)
    case Concat(l, r) =>
      && LegalS(p, l, moved, c)
      && LegalS(p, r, moved + MovesS(p, l), c)
      && StaysPut(l, MovesS(p, r))
    case Call(f, args) =>
      && f < |p| && f in c.callable
      && |args| == |p[f].params|
      && LegalArgs(p, args, moved, c)
      && (forall k :: 0 <= k < |args| ==> StaysPut(args[k], MovesArgs(p, args)))
      && HandsOver(args, p[f].params, c)
  }

  predicate LegalArgs(p: Program, es: seq<SExpr>, moved: set<Var>, c: Ctx)
    decreases es
  {
    if es == [] then true
    else
      && LegalArgs(p, es[..|es| - 1], moved, c)
      && LegalS(p, es[|es| - 1], moved + MovesArgs(p, es[..|es| - 1]), c)
  }

  /** An `own` parameter receives a tracked `own` variable, which is passed only once. */
  predicate HandsOver(args: seq<SExpr>, params: seq<Var>, c: Ctx)
    requires |args| == |params|
  {
    forall k :: 0 <= k < |args| && params[k].own ==>
      && args[k].SVar? && args[k].x.own && args[k].x in c.owned
      && forall j :: 0 <= j < |args| && j != k ==> args[j] != args[k]
  }

  predicate LegalB(p: Program, e: BExpr, moved: set<Var>, c: Ctx)
    decreases e
  {
    match e
    case Truthy(i) => LegalI(i, c)
    case Cmp(_, l, r) => LegalI(l, c) && LegalI(r, c)
    case StrCmp(_, l, r) =>
      && LegalS(p, l, moved, c)
      && LegalS(p, r, moved + MovesS(p, l), c)
      && StaysPut(l, MovesS(p, r))
    case Logic(_, l, r) =>
      && LegalB(p, l, moved, c)
      && LegalB(p, r, moved + MovesB(p, l), c)
      && (c.exact ==> MovesB(p, r) == {})
  }

  // ---- Statements ----

  /** All tracked variables, outermost scope first. */
  function Flat(scopes: seq<seq<Var>>): seq<Var> {
    if scopes == [] then [] else Flat(scopes[..|scopes| - 1]) + scopes[|scopes| - 1]
  }

  function At(cg: CG, c: Ctx): Ctx {
    c.(owned := Flat(cg.scopes))
  }

  /** The context of a loop body. */
  function Inside(cg: CG, c: Ctx): Ctx {
    c.(outside := Flat(cg.scopes))
  }

  /** The counter of a range loop is an initialised integer inside the loop. */
  function Counting(s: Stmt, c: Ctx): Ctx
    requires s.ForRange?
  {
    c.(ints := c.ints + {s.ix})
  }

  /**
   A jump releases nothing, so nothing is leaked only if no string variable was declared since
   the loop was entered.
   */
  predicate LegalJump(cg: CG, c: Ctx) {
    cg.loops.InLoop? && (c.exact ==> Flat(cg.scopes) == c.outside)
  }

  predicate LoopRule(cg: CG, moves: set<Var>) {
    cg.loops.InLoop? ==> moves == {}
  }

  predicate LegalStmt(p: Program, s: Stmt, cg: CG, c: Ctx)
    requires Ok(cg) && cg.scopes != []
    decreases s, 1
  {
    match s
    case DeclStr(x, e) =>
      && x !in Flat(cg.scopes) && x !in c.borrowed && x !in cg.moved
      && LegalS(p, e, cg.moved, At(cg, c))
      && LoopRule(cg, MovesS(p, e)) && (cg.loops.InLoop? ==> !IsMove(x, e))
    case AssignStr(x, e) =>
      && x in Flat(cg.scopes) && x !in cg.moved && x !in MovesS(p, e) && x !in c.borrowed
      && LegalS(p, e, cg.moved, At(cg, c))
      && LoopRule(cg, MovesS(p, e)) && (cg.loops.InLoop? ==> !IsMove(x, e))
      && (e.SVar? ==> IsMove(x, e) && e.x != x)
    case DeclEmpty(_) => false
    case DeclInt(_, e) => LegalI(e, c)
    case AssignInt(x, e) => LegalI(e, c) && x in c.ints
    case Eval(e) => LegalS(p, e, cg.moved, At(cg, c)) && LoopRule(cg, MovesS(p, e))
    case Return(e) => LegalS(p, e, cg.moved, At(cg, c)) && LoopRule(cg, MovesS(p, e))
    case Break => LegalJump(cg, c)
    case Continue => LegalJump(cg, c)
    case Block(body) => LegalBlock(p, body, cg, c)
    case If(_, _, _) => LegalIf(p, s, cg, c)
    case While(_, _) => LegalWhile(p, s, cg, c)
    case ForRange(_, _, _, _) => LegalRange(p, s, cg, c)
    case Forever(body) => LegalBlock(p, body, EnterForever(cg), Inside(cg, c))
  }

  /**
   After the statement a variable counts as moved if either branch moves it. So a branch that
   falls through has to move all of those that are still tracked.
   */
  predicate BranchesMoveAlike(p: Program, s: Stmt, cg: CG)
    requires Ok(cg) && s.If?
  {
    var moved := ElseEnd(p, s, cg).moved + ThenEnd(p, s, cg).moved;
    && (Terminated(GenBlock(p, s.thn, ThenStart(p, s, cg))) || MovedAlike(Flat(cg.scopes), ThenEnd(p, s, cg).moved, moved))
    && (Terminated(GenBlock(p, s.els, ElseStart(p, s, cg))) || MovedAlike(Flat(cg.scopes), ElseEnd(p, s, cg).moved, moved))
  }

  predicate LegalIf(p: Program, s: Stmt, cg: CG, c: Ctx)
    requires Ok(cg) && cg.scopes != [] && s.If?
    decreases s, 0
  {
    && LegalB(p, s.cond, cg.moved, At(cg, c)) && LoopRule(cg, MovesB(p, s.cond))
    && LegalBlock(p, s.thn, ThenStart(p, s, cg), c)
    && LegalBlock(p, s.els, ElseStart(p, s, cg), c)
    && (c.exact ==> BranchesMoveAlike(p, s, cg))
  }

  predicate LegalWhile(p: Program, s: Stmt, cg: CG, c: Ctx)
    requires Ok(cg) && cg.scopes != [] && s.While?
    decreases s, 0
  {
    && LegalB(p, s.cond, cg.moved, At(cg, c)) && MovesB(p, s.cond) == {}
    && LegalBlock(p, s.body, WhileStart(p, s, cg), Inside(cg, c))
  }

  predicate LegalRange(p: Program, s: Stmt, cg: CG, c: Ctx)
    requires Ok(cg) && cg.scopes != [] && s.ForRange?
    decreases s, 0
  {
    && LegalI(s.lo, c) && LegalI(s.hi, c)
    && LegalBlock(p, s.body, RangeStart(s, cg), Inside(cg, Counting(s, c)))
  }

  predicate LegalBlock(p: Program, ss: seq<Stmt>, cg: CG, c: Ctx)
    requires Ok(cg)
    decreases ss, 1
  {
    LegalStmts(p, ss, PushScope(cg), c)
  }

  /** An integer declaration is in scope for the rest of its block. */
  function After(s: Stmt, c: Ctx): Ctx {
    if s.DeclInt? then c.(ints := c.ints + {s.ix}) else c
  }

  /** Statements after one that ends the block are not generated and not constrained. */
  predicate LegalStmts(p: Program, ss: seq<Stmt>, cg: CG, c: Ctx)
    requires Ok(cg) && cg.scopes != []
    decreases ss, 0
  {
    if ss == [] || Terminated(cg) then true
    else
      && LegalStmt(p, ss[0], cg, c)
      && LegalStmts(p, ss[1..], ReleaseTemps(GenStmt(p, ss[0], cg)), After(ss[0], c))
  }

  // ---- Functions and programs ----

  function Borrowed(xs: seq<Var>): set<Var> {
    set x | x in xs && !x.own
  }

  function FunCtx(f: Fun, exact: bool, callable: set<nat>): Ctx {
    Ctx([], Borrowed(f.params), {}, exact, [], callable)
  }

  /** Exactness also needs every own parameter to be moved where the end of the body is reached. */
  predicate LegalFun(p: Program, f: Fun, exact: bool, callable: set<nat>) {
    && (forall i, j :: 0 <= i < j < |f.params| ==> f.params[i] != f.params[j])
    && LegalBlock(p, f.body, Prologue(f), FunCtx(f, exact, callable))
    && (exact && !Terminated(GenBody(p, f)) ==> forall x :: x in OwnParams(f.params) ==> x in GenBody(p, f).moved)
  }

  /** The functions of `part` are legal and call each other only; the rest of the program is arbitrary. */
  predicate LegalPart(p: Program, part: set<nat>, exact: bool) {
    forall k :: k in part ==> k < |p| && LegalFun(p, p[k], exact, part)
  }

  function Indices(n: nat): (s: set<nat>)
    ensures forall k: nat :: k in s <==> k < n
  {
    if n == 0 then {} else Indices(n - 1) + {n - 1}
  }

  predicate LegalProgram(p: Program, exact: bool) {
    LegalPart(p, Indices(|p|), exact)
  }

  // ---- Emission of an expression moves exactly its moves ----

  lemma {:induction false} GenSMoves(p: Program, e: SExpr, cg: CG)
    requires Ok(cg)
    ensures GenS(p, e, cg).0.moved == cg.moved + MovesS(p, e)
    decreases e
  {
    match e
    case Lit(_) =>
    case SVar(_) =>
    case Concat(l, r) =>
      GenSMoves(p, l, cg);
      GenSMoves(p, r, GenS(p, l, cg).0);
    case Call(_, args) => GenArgsMoves(p, args, cg);
  }

  lemma {:induction false} GenArgsMoves(p: Program, es: seq<SExpr>, cg: CG)
    requires Ok(cg)
    ensures GenArgs(p, es, cg).0.moved == cg.moved + MovesArgs(p, es)
    decreases es
  {
    if es != [] {
      GenArgsMoves(p, es[..|es| - 1], cg);
      GenSMoves(p, es[|es| - 1], GenArgs(p, es[..|es| - 1], cg).0);
    }
  }

  lemma {:induction false} GenIMoves(e: IExpr, cg: CG)
    requires Ok(cg)
    ensures GenI(e, cg).0.moved == cg.moved && GenI(e, cg).0.temps == cg.temps
    decreases e
  {
    if e.Arith? {
      GenIMoves(e.il, cg);
      GenIMoves(e.ir, GenI(e.il, cg).0);
    }
  }

  lemma {:induction false} GenBMoves(p: Program, e: BExpr, cg: CG)
    requires Ok(cg)
    ensures GenB(p, e, cg).0.moved == cg.moved + MovesB(p, e)
    decreases e, 1
  {
    match e
    case Truthy(i) => GenIMoves(i, cg);
    case Cmp(_, l, r) =>
      GenIMoves(l, cg);
      GenIMoves(r, GenI(l, cg).0);
    case StrCmp(_, l, r) =>
      GenSMoves(p, l, cg);
      GenSMoves(p, r, GenS(p, l, cg).0);
    case Logic(_, _, _) => GenLogicMoves(p, e, cg);
  }

  lemma {:induction false} GenLogicMoves(p: Program, e: BExpr, cg: CG)
    requires Ok(cg) && e.Logic?
    ensures GenLogic(p, e, cg).0.moved == cg.moved + MovesB(p, e)
    decreases e, 0
  {
    var (c1, v) := GenB(p, e.bl, cg);
    GenBMoves(p, e.bl, cg);
    GenBMoves(p, e.br, OpenRight(c1, v, e.isAnd));
  }

  lemma GenCondMoves(p: Program, e: BExpr, cg: CG)
    requires Ok(cg)
    ensures GenCond(p, e, cg).0.moved == cg.moved + MovesB(p, e)
  {
    GenBMoves(p, e, cg);
  }

  // ---- Inside a loop nothing is moved ----

  lemma {:induction false} LoopStmtMoves(p: Program, s: Stmt, cg: CG, c: Ctx)
    requires Ok(cg) && cg.scopes != [] && cg.loops.InLoop? && LegalStmt(p, s, cg, c)
    ensures GenStmt(p, s, cg).moved == cg.moved
    decreases s, 1
  {
    hide GenS, GenI, GenBlock, GenIf, GenWhile, GenRange, LegalBlock, LegalIf, LegalWhile, LegalRange, LegalS,
      LegalI, MovesS, Flat, Spares, Prefixes, Touches;
    match s
    case DeclStr(x, e) => GenSMoves(p, e, Declare(cg, x));
    case AssignStr(x, e) => GenSMoves(p, e, cg);
    case DeclEmpty(_) =>
    case DeclInt(_, e) => GenIMoves(e, cg);
    case AssignInt(_, e) => GenIMoves(e, cg);
    case Eval(e) => GenSMoves(p, e, cg);
    case Return(e) => GenSMoves(p, e, cg);
    case Break =>
    case Continue =>
    case Block(body) => LoopBlockMoves(p, body, cg, c);
    case If(_, _, _) => LoopIfMoves(p, s, cg, c);
    case While(_, _) => WhileMoves(p, s, cg, c);
    case ForRange(_, _, _, _) => RangeMoves(p, s, cg, c);
    case Forever(body) => LoopBlockMoves(p, body, EnterForever(cg), Inside(cg, c));
  }

  lemma {:induction false} LoopIfMoves(p: Program, s: Stmt, cg: CG, c: Ctx)
    requires Ok(cg) && cg.scopes != [] && cg.loops.InLoop? && s.If? && LegalIf(p, s, cg, c)
    ensures GenIf(p, s, cg).moved == cg.moved
    decreases s, 0
  {
    GenCondMoves(p, s.cond, cg);
    LoopBlockMoves(p, s.thn, ThenStart(p, s, cg), c);
    LoopBlockMoves(p, s.els, ElseStart(p, s, cg), c);
  }

  lemma {:induction false} WhileMoves(p: Program, s: Stmt, cg: CG, c: Ctx)
    requires Ok(cg) && cg.scopes != [] && s.While? && LegalWhile(p, s, cg, c)
    ensures GenWhile(p, s, cg).moved == cg.moved
    decreases s, 0
  {
    hide GenCond, OpenWhile;
    GenCondMoves(p, s.cond, OpenWhile(cg));
    LoopBlockMoves(p, s.body, WhileStart(p, s, cg), Inside(cg, c));
  }

  lemma {:induction false} RangeMoves(p: Program, s: Stmt, cg: CG, c: Ctx)
    requires Ok(cg) && cg.scopes != [] && s.ForRange? && LegalRange(p, s, cg, c)
    ensures GenRange(p, s, cg).moved == cg.moved
    decreases s, 0
  {
    LoopBlockMoves(p, s.body, RangeStart(s, cg), Inside(cg, Counting(s, c)));
  }

  lemma {:induction false} LoopBlockMoves(p: Program, ss: seq<Stmt>, cg: CG, c: Ctx)
    requires Ok(cg) && cg.loops.InLoop? && LegalBlock(p, ss, cg, c)
    ensures GenBlock(p, ss, cg).moved == cg.moved
    decreases ss, 1
  {
    LoopStmtsMoves(p, ss, PushScope(cg), c);
  }

  lemma {:induction false} LoopStmtsMoves(p: Program, ss: seq<Stmt>, cg: CG, c: Ctx)
    requires Ok(cg) && cg.scopes != [] && cg.loops.InLoop? && LegalStmts(p, ss, cg, c)
    ensures GenStmts(p, ss, cg).moved == cg.moved
    decreases ss, 0
  {
    if ss != [] && !Terminated(cg) {
      LoopStmtMoves(p, ss[0], cg, c);
      LoopStmtsMoves(p, ss[1..], ReleaseTemps(GenStmt(p, ss[0], cg)), After(ss[0], c));
    }
  }
}
