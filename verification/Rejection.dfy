/**
 Which programs the code generator rejects: those that move an `own` variable inside a loop.
 The generator notices this from its state while it emits code. Here this is shown to be a
 property of the program text alone, and to mean that in accepted code every turn of a loop
 starts from the same moved set.
 */
module Rejection {
  import opened Source
  import opened Machine
  import opened Lowering
  import opened Legality

  // ---- Which programs are rejected ----

  predicate Rejects(cg: CG, moves: set<Var>) {
    cg.loops.InLoop? && moves != {}
  }

  predicate RejectsStore(p: Program, x: Var, e: SExpr, cg: CG) {
    Rejects(cg, MovesS(p, e)) || (cg.loops.InLoop? && IsMove(x, e))
  }

  predicate RejectsStmt(p: Program, s: Stmt, cg: CG)
    requires Ok(cg) && cg.scopes != []
    decreases s, 1
  {
    match s
    case DeclStr(x, e) => RejectsStore(p, x, e, cg)
    case AssignStr(x, e) => RejectsStore(p, x, e, cg)
    case Eval(e) => Rejects(cg, MovesS(p, e))
    case Return(e) => Rejects(cg, MovesS(p, e))
    case Block(body) => RejectsBlock(p, body, cg)
    case If(c, thn, els) =>
      || Rejects(cg, MovesB(p, c))
      || RejectsBlock(p, thn, ThenStart(p, s, cg))
      || RejectsBlock(p, els, ElseStart(p, s, cg))
    case While(c, body) => Rejects(cg, MovesB(p, c)) || RejectsBlock(p, body, WhileStart(p, s, cg))
    case ForRange(_, _, _, body) => RejectsBlock(p, body, RangeStart(s, cg))
    case Forever(body) => RejectsBlock(p, body, EnterForever(cg))
    case _ => false
  }

  predicate RejectsBlock(p: Program, ss: seq<Stmt>, cg: CG)
    requires Ok(cg)
    decreases ss, 1
  {
    RejectsStmts(p, ss, PushScope(cg))
  }

  predicate RejectsStmts(p: Program, ss: seq<Stmt>, cg: CG)
    requires Ok(cg) && cg.scopes != []
    decreases ss, 0
  {
    if ss == [] || Terminated(cg) then false
    else RejectsStmt(p, ss[0], cg) || RejectsStmts(p, ss[1..], ReleaseTemps(GenStmt(p, ss[0], cg)))
  }

  predicate RejectsFun(p: Program, f: Fun) {
    RejectsBlock(p, f.body, Prologue(f))
  }

  /** Legal programs are accepted. */
  lemma {:induction false} LegalIsAccepted(p: Program, part: set<nat>, exact: bool, k: nat)
    requires LegalPart(p, part, exact) && k in part
    ensures !RejectsFun(p, p[k])
  {
    assert LegalFun(p, p[k], exact, part);
    AcceptBlock(p, p[k].body, Prologue(p[k]), FunCtx(p[k], exact, part));
  }

  lemma {:induction false} AcceptStmt(p: Program, s: Stmt, cg: CG, c: Ctx)
    requires Ok(cg) && cg.scopes != [] && LegalStmt(p, s, cg, c)
    ensures !RejectsStmt(p, s, cg)
    decreases s, 1
  {
    hide GenS, LegalS, MovesS, LegalB, MovesB, ThenStart, ElseStart, WhileStart, RangeStart, EnterForever, ThenEnd, ElseEnd;
    match s
    case Block(body) => AcceptBlock(p, body, cg, c);
    case If(_, thn, els) =>
      assert LegalIf(p, s, cg, c);
      AcceptBlock(p, thn, ThenStart(p, s, cg), c);
      AcceptBlock(p, els, ElseStart(p, s, cg), c);
    case While(_, body) =>
      assert LegalWhile(p, s, cg, c);
      AcceptBlock(p, body, WhileStart(p, s, cg), Inside(cg, c));
    case ForRange(_, _, _, body) =>
      assert LegalRange(p, s, cg, c);
      AcceptBlock(p, body, RangeStart(s, cg), Inside(cg, Counting(s, c)));
    case Forever(body) => AcceptBlock(p, body, EnterForever(cg), Inside(cg, c));
    case _ =>
  }

  lemma {:induction false} AcceptBlock(p: Program, ss: seq<Stmt>, cg: CG, c: Ctx)
    requires Ok(cg) && LegalBlock(p, ss, cg, c)
    ensures !RejectsBlock(p, ss, cg)
    decreases ss, 1
  {
    AcceptStmts(p, ss, PushScope(cg), c);
  }

  lemma {:induction false} AcceptStmts(p: Program, ss: seq<Stmt>, cg: CG, c: Ctx)
    requires Ok(cg) && cg.scopes != [] && LegalStmts(p, ss, cg, c)
    ensures !RejectsStmts(p, ss, cg)
    decreases ss, 0
  {
    hide GenStmt, LegalStmt, RejectsStmt;
    if ss != [] && !Terminated(cg) {
      AcceptStmt(p, ss[0], cg, c);
      AcceptStmts(p, ss[1..], ReleaseTemps(GenStmt(p, ss[0], cg)), After(ss[0], c));
    }
  }

  lemma NoneRejected(p: Program)
    ensures LegalProgram(p, false) || LegalProgram(p, true) ==> forall k :: 0 <= k < |p| ==> !RejectsFun(p, p[k])
  {
    hide RejectsFun, LegalFun;
    forall k, exact | 0 <= k < |p| && LegalProgram(p, exact) ensures !RejectsFun(p, p[k]) {
      LegalIsAccepted(p, Indices(|p|), exact, k);
    }
  }

  // ---- The same, read off the program text ----

  /** Some call in the expression is given an own variable for an own parameter. */
  predicate Passes(p: Program, e: SExpr)
    decreases e
  {
    match e
    case Lit(_) => false
    case SVar(_) => false
    case Concat(l, r) => Passes(p, l) || Passes(p, r)
    case Call(f, args) =>
      || (exists k :: 0 <= k < |args| && Passes(p, args[k]))
      || (f < |p| && exists k :: 0 <= k < |args| && k < |p[f].params| && PassesOwn(args[k], p[f].params[k]))
  }

  predicate PassesOwn(arg: SExpr, param: Var) {
    param.own && arg.SVar? && arg.x.own
  }

  predicate PassesB(p: Program, e: BExpr)
    decreases e
  {
    match e
    case Truthy(_) => false
    case Cmp(_, _, _) => false
    case StrCmp(_, l, r) => Passes(p, l) || Passes(p, r)
    case Logic(_, l, r) => PassesB(p, l) || PassesB(p, r)
  }

  /** Nothing after the statement is reached, in the eyes of the generator. */
  predicate Ends(s: Stmt, inLoop: bool)
    decreases s
  {
    match s
    case Return(_) => true
    case Break => inLoop
    case Continue => inLoop
    case Block(body) => exists k :: 0 <= k < |body| && Ends(body[k], inLoop)
    case _ => false
  }

  predicate EndsAll(ss: seq<Stmt>, inLoop: bool) {
    exists k :: 0 <= k < |ss| && Ends(ss[k], inLoop)
  }

  /** Inside a loop, an own variable is passed to an own parameter or copied to an own variable. */
  predicate MovesInLoop(p: Program, s: Stmt, inLoop: bool)
    decreases s
  {
    match s
    case DeclStr(x, e) => inLoop && (Passes(p, e) || (x.own && e.SVar? && e.x.own))
    case AssignStr(x, e) => inLoop && (Passes(p, e) || (x.own && e.SVar? && e.x.own))
    case Eval(e) => inLoop && Passes(p, e)
    case Return(e) => inLoop && Passes(p, e)
    case Block(body) => SomeMovesInLoop(p, body, inLoop)
    case If(c, thn, els) =>
      (inLoop && PassesB(p, c)) || SomeMovesInLoop(p, thn, inLoop) || SomeMovesInLoop(p, els, inLoop)
    case While(c, body) => (inLoop && PassesB(p, c)) || SomeMovesInLoop(p, body, true)
    case ForRange(_, _, _, body) => SomeMovesInLoop(p, body, true)
    case Forever(body) => SomeMovesInLoop(p, body, true)
    case _ => false
  }

  /** Some statement does that before which none ends the block. */
  predicate SomeMovesInLoop(p: Program, ss: seq<Stmt>, inLoop: bool)
    decreases ss
  {
    exists k :: 0 <= k < |ss| && MovesInLoop(p, ss[k], inLoop) && forall j :: 0 <= j < k ==> !Ends(ss[j], inLoop)
  }

  lemma EndsFirst(ss: seq<Stmt>, inLoop: bool)
    ensures EndsAll(ss, inLoop) == (ss != [] && (Ends(ss[0], inLoop) || EndsAll(ss[1..], inLoop)))
  {
    hide Ends;
    if ss != [] {
      var rest := ss[1..];
      assert forall k :: 0 < k < |ss| ==> ss[k] == rest[k - 1];
      if EndsAll(rest, inLoop) {
        var k :| 0 <= k < |rest| && Ends(rest[k], inLoop);
        assert Ends(ss[k + 1], inLoop);
      }
    }
  }

  lemma MovesFirst(p: Program, ss: seq<Stmt>, inLoop: bool)
    ensures SomeMovesInLoop(p, ss, inLoop)
         == (ss != [] && (MovesInLoop(p, ss[0], inLoop) || (!Ends(ss[0], inLoop) && SomeMovesInLoop(p, ss[1..], inLoop))))
  {
    hide Ends, MovesInLoop;
    if ss != [] {
      var rest := ss[1..];
      assert forall k :: 0 < k < |ss| ==> ss[k] == rest[k - 1];
      if SomeMovesInLoop(p, ss, inLoop) && !MovesInLoop(p, ss[0], inLoop) {
        var k :| 0 <= k < |ss| && MovesInLoop(p, ss[k], inLoop) && forall j :: 0 <= j < k ==> !Ends(ss[j], inLoop);
        assert MovesInLoop(p, rest[k - 1], inLoop);
        forall j | 0 <= j < k - 1 ensures !Ends(rest[j], inLoop) { assert rest[j] == ss[j + 1]; }
      }
      if !Ends(ss[0], inLoop) && SomeMovesInLoop(p, rest, inLoop) {
        var k :| 0 <= k < |rest| && MovesInLoop(p, rest[k], inLoop) && forall j :: 0 <= j < k ==> !Ends(rest[j], inLoop);
        assert MovesInLoop(p, ss[k + 1], inLoop);
      }
    }
  }

  // ---- Expressions ----

  lemma {:induction false} OwnMovesPass(args: seq<SExpr>, params: seq<Var>)
    ensures OwnMoves(args, params) != {} <==> exists k :: 0 <= k < |args| && k < |params| && PassesOwn(args[k], params[k])
    decreases |args|
  {
    if args != [] && params != [] {
      OwnMovesPass(args[1..], params[1..]);
      assert forall k :: 0 < k < |args| ==> args[k] == args[1..][k - 1];
      assert forall k :: 0 < k < |params| ==> params[k] == params[1..][k - 1];
      if PassesOwn(args[0], params[0]) {
        assert args[0].x in OwnMoves(args, params);
      } else {
        assert OwnMoves(args, params) == OwnMoves(args[1..], params[1..]);
        if k :| 0 <= k < |args[1..]| && k < |params[1..]| && PassesOwn(args[1..][k], params[1..][k]) {
          assert PassesOwn(args[k + 1], params[k + 1]);
        }
      }
    }
  }

  lemma {:induction false} MovesPass(p: Program, e: SExpr)
    ensures MovesS(p, e) != {} <==> Passes(p, e)
    decreases e
  {
    match e
    case Lit(_) =>
    case SVar(_) =>
    case Concat(l, r) =>
      MovesPass(p, l);
      MovesPass(p, r);
    case Call(f, args) =>
      MovesPassArgs(p, args);
      OwnMovesPass(args, ParamsOf(p, f));
  }

  lemma {:induction false} MovesPassArgs(p: Program, es: seq<SExpr>)
    ensures MovesArgs(p, es) != {} <==> exists k :: 0 <= k < |es| && Passes(p, es[k])
    decreases es
  {
    if es != [] {
      var init, n := es[..|es| - 1], |es| - 1;
      MovesPassArgs(p, init);
      MovesPass(p, es[n]);
      assert forall k :: 0 <= k < n ==> es[k] == init[k];
      if k :| 0 <= k < |init| && Passes(p, init[k]) { assert Passes(p, es[k]); }
    }
  }

  lemma {:induction false} MovesPassB(p: Program, e: BExpr)
    ensures MovesB(p, e) != {} <==> PassesB(p, e)
    decreases e
  {
    match e
    case Truthy(_) =>
    case Cmp(_, _, _) =>
    case StrCmp(_, l, r) =>
      MovesPass(p, l);
      MovesPass(p, r);
    case Logic(_, l, r) =>
      MovesPassB(p, l);
      MovesPassB(p, r);
  }

  // ---- Where the generator stops ----

  lemma {:induction false} ReleasesOpen(cg: CG, rs: seq<Reg>)
    requires Ok(cg) && !Terminated(cg)
    ensures !Terminated(EmitReleases(cg, rs))
    decreases rs
  {
    if rs != [] { ReleasesOpen(Emit(cg, StringRelease(rs[0])), rs[1..]); }
  }

  lemma TempsOpen(cg: CG)
    requires Ok(cg)
    ensures Terminated(ReleaseTemps(cg)) == Terminated(cg)
  {
    if !Terminated(cg) { ReleasesOpen(cg, cg.temps); }
  }

  lemma {:induction false} VarsOpen(cg: CG, xs: seq<Var>)
    requires Ok(cg) && !Terminated(cg)
    ensures !Terminated(ReleaseVars(cg, xs))
    decreases xs
  {
    if xs != [] {
      VarsOpen(if xs[0] in cg.moved then cg else Emit(Emit(Fresh(cg), LoadStr(cg.next, xs[0])), StringRelease(cg.next)), xs[1..]);
    }
  }

  /** A block that is not the insertion point stays empty while code is emitted. */
  lemma StaysEmpty(a: CG, b: CG, next: nat, k: nat)
    requires Ok(a) && Grows(a, b) && k < |a.blocks| && k != a.cur && a.blocks[k] == []
    ensures k < |JoinTo(b, next).blocks| && JoinTo(b, next).blocks[k] == []
  {
  }

  /** The exit block of a while loop is empty when its body starts. */
  lemma WhileExit(p: Program, s: Stmt, cg: CG)
    requires Ok(cg) && s.While?
    ensures var ws := WhileStart(p, s, cg);
      ws.blocks[|cg.blocks| + 2] == [] && ws.blocks[ws.cur] == [] && ws.loops.InLoop?
  {
    hide GenCond, OpenWhile, ReleaseTemps;
    var b := |cg.blocks|;
    var c1 := OpenWhile(cg);
    var (c2, v) := GenCond(p, s.cond, c1);
    OpenedEmpty(cg);
    assert c2.blocks[b + 1] == c1.blocks[b + 1] && c2.blocks[b + 2] == c1.blocks[b + 2];
    assert c2.cur != b + 1 && c2.cur != b + 2;
  }

  lemma OpenedEmpty(cg: CG)
    requires Ok(cg)
    ensures OpenWhile(cg).blocks[|cg.blocks| + 1] == [] == OpenWhile(cg).blocks[|cg.blocks| + 2]
  {
  }

  lemma RangeExit(s: Stmt, cg: CG)
    requires Ok(cg) && s.ForRange?
    ensures var rs := RangeStart(s, cg);
      rs.blocks[|cg.blocks| + 3] == [] && rs.blocks[rs.cur] == [] && rs.loops.InLoop?
  {
    hide Bounds;
  }

  lemma ForeverExit(cg: CG)
    requires Ok(cg)
    ensures var fs := EnterForever(cg);
      fs.blocks[|cg.blocks| + 1] == [] && fs.blocks[fs.cur] == [] && fs.loops.InLoop?
  {
  }

  /** After a loop the generator goes on in an empty block. */
  lemma LoopsGoOn(p: Program, s: Stmt, cg: CG)
    requires Ok(cg) && cg.scopes != [] && (s.While? || s.ForRange? || s.Forever?)
    ensures !Terminated(GenStmt(p, s, cg))
  {
    hide GenBlock, JoinTo, WhileStart, RangeStart, EnterForever, Spares, Touches, CountUp;
    var b := |cg.blocks|;
    match s
    case While(_, _) =>
      var ws := WhileStart(p, s, cg);
      WhileExit(p, s, cg);
      StaysEmpty(ws, GenBlock(p, s.body, ws), b, b + 2);
    case ForRange(_, _, _, _) =>
      var rs := RangeStart(s, cg);
      RangeExit(s, cg);
      StaysEmpty(rs, GenBlock(p, s.body, rs), b + 2, b + 3);
    case Forever(_) =>
      var fs := EnterForever(cg);
      ForeverExit(cg);
      StaysEmpty(fs, GenBlock(p, s.body, fs), b, b + 1);
  }

  /** The generator stops behind a statement exactly if the text says so. */
  lemma {:induction false} EndsStmt(p: Program, s: Stmt, cg: CG)
    requires Ok(cg) && cg.scopes != [] && !Terminated(cg)
    ensures Terminated(GenStmt(p, s, cg)) == Ends(s, cg.loops.InLoop?)
    decreases s, 1
  {
    hide GenBlock, GenIf, GenWhile, GenRange, GenForever, ReleaseTemps, ReleaseVars, Spares, Touches, Prefixes, GenS;
    match s
    case DeclStr(x, e) => DeclOpen(p, x, e, cg);
    case AssignStr(x, e) => AssignOpen(p, x, e, cg);
    case Eval(e) => StringOpen(p, e, cg);
    case Return(_) =>
    case Block(body) =>
      EndsBlock(p, body, cg);
      assert Ends(s, cg.loops.InLoop?) == EndsAll(body, cg.loops.InLoop?);
    case If(_, _, _) =>
    case While(_, _) => LoopsGoOn(p, s, cg);
    case ForRange(_, _, _, _) => LoopsGoOn(p, s, cg);
    case Forever(_) => LoopsGoOn(p, s, cg);
    case _ =>
  }

  lemma StringOpen(p: Program, e: SExpr, cg: CG)
    requires Ok(cg)
    ensures !Terminated(GenS(p, e, cg).0)
  {
    hide GenArgs;
  }

  lemma DeclOpen(p: Program, x: Var, e: SExpr, cg: CG)
    requires Ok(cg) && cg.scopes != []
    ensures !Terminated(GenDecl(p, x, e, cg))
  {
    hide GenS, Declare;
  }

  lemma AssignOpen(p: Program, x: Var, e: SExpr, cg: CG)
    requires Ok(cg)
    ensures !Terminated(GenAssign(p, x, e, cg))
  {
    hide GenS;
  }

  lemma {:induction false} EndsBlock(p: Program, ss: seq<Stmt>, cg: CG)
    requires Ok(cg) && !Terminated(cg)
    ensures Terminated(GenBlock(p, ss, cg)) == EndsAll(ss, cg.loops.InLoop?)
    decreases ss, 1
  {
    hide GenStmts, ReleaseVars, EndsAll;
    var c1 := GenStmts(p, ss, PushScope(cg));
    EndsStmts(p, ss, PushScope(cg));
    if !Terminated(c1) { VarsOpen(c1, c1.scopes[|c1.scopes| - 1]); }
  }

  lemma {:induction false} EndsStmts(p: Program, ss: seq<Stmt>, cg: CG)
    requires Ok(cg) && cg.scopes != [] && !Terminated(cg)
    ensures Terminated(GenStmts(p, ss, cg)) == EndsAll(ss, cg.loops.InLoop?)
    decreases ss, 0
  {
    hide GenStmt, ReleaseTemps, EndsAll;
    EndsFirst(ss, cg.loops.InLoop?);
    if ss != [] {
      var c1 := GenStmt(p, ss[0], cg);
      EndsStmt(p, ss[0], cg);
      TempsOpen(c1);
      if !Terminated(c1) { EndsStmts(p, ss[1..], ReleaseTemps(c1)); }
    }
  }

  // ---- Rejection is a property of the text ----

  lemma {:induction false} RejectsIsText(p: Program, s: Stmt, cg: CG)
    requires Ok(cg) && cg.scopes != [] && !Terminated(cg)
    ensures RejectsStmt(p, s, cg) <==> MovesInLoop(p, s, cg.loops.InLoop?)
    decreases s, 1
  {
    hide GenS, MovesS, MovesB, Passes, PassesB, SomeMovesInLoop, RejectsBlock, Spares, Touches, Prefixes,
      ThenStart, ElseStart, WhileStart, RangeStart, EnterForever;
    match s
    case DeclStr(x, e) => MovesPass(p, e);
    case AssignStr(x, e) => MovesPass(p, e);
    case Eval(e) => MovesPass(p, e);
    case Return(e) => MovesPass(p, e);
    case Block(body) => BlockIsText(p, body, cg);
    case If(c, thn, els) =>
      MovesPassB(p, c);
      BlockIsText(p, thn, ThenStart(p, s, cg));
      BlockIsText(p, els, ElseStart(p, s, cg));
    case While(c, body) =>
      MovesPassB(p, c);
      WhileExit(p, s, cg);
      BlockIsText(p, body, WhileStart(p, s, cg));
    case ForRange(_, _, _, body) =>
      RangeExit(s, cg);
      BlockIsText(p, body, RangeStart(s, cg));
    case Forever(body) =>
      ForeverExit(cg);
      BlockIsText(p, body, EnterForever(cg));
    case _ =>
  }

  lemma {:induction false} BlockIsText(p: Program, ss: seq<Stmt>, cg: CG)
    requires Ok(cg) && !Terminated(cg)
    ensures RejectsBlock(p, ss, cg) <==> SomeMovesInLoop(p, ss, cg.loops.InLoop?)
    decreases ss, 1
  {
    hide RejectsStmts, SomeMovesInLoop;
    StmtsAreText(p, ss, PushScope(cg));
  }

  lemma {:induction false} StmtsAreText(p: Program, ss: seq<Stmt>, cg: CG)
    requires Ok(cg) && cg.scopes != [] && !Terminated(cg)
    ensures RejectsStmts(p, ss, cg) <==> SomeMovesInLoop(p, ss, cg.loops.InLoop?)
    decreases ss, 0
  {
    hide GenStmt, ReleaseTemps, RejectsStmt, SomeMovesInLoop, Ends;
    MovesFirst(p, ss, cg.loops.InLoop?);
    if ss != [] {
      var c1 := GenStmt(p, ss[0], cg);
      RejectsIsText(p, ss[0], cg);
      EndsStmt(p, ss[0], cg);
      TempsOpen(c1);
      if !Terminated(c1) { StmtsAreText(p, ss[1..], ReleaseTemps(c1)); }
    }
  }

  lemma {:induction false} PrologueOpen(cg: CG, xs: seq<Var>, k: nat)
    requires Ok(cg) && !Terminated(cg)
    ensures !Terminated(StoreArgs(cg, xs, k))
    decreases xs
  {
    if xs != [] { PrologueOpen(Emit(cg, StoreArg(xs[0], k)), xs[1..], k + 1); }
  }

  /** A function is rejected if and only if its text moves an own variable inside a loop. */
  lemma FunctionIsText(p: Program, f: Fun)
    ensures RejectsFun(p, f) <==> SomeMovesInLoop(p, f.body, false)
  {
    hide RejectsBlock, SomeMovesInLoop, StoreArgs;
    PrologueOpen(EMPTY, f.params, 0);
    BlockIsText(p, f.body, Prologue(f));
  }

  // ---- What acceptance means for the emitted code ----

  /** Inside a loop, an accepted statement moves nothing. */
  lemma {:induction false} AcceptedMovesNothing(p: Program, s: Stmt, cg: CG)
    requires Ok(cg) && cg.scopes != [] && cg.loops.InLoop? && !RejectsStmt(p, s, cg)
    ensures GenStmt(p, s, cg).moved == cg.moved
    decreases s, 1
  {
    hide GenS, GenI, GenBlock, GenIf, GenWhile, GenRange, RejectsBlock, MovesS, Spares, Prefixes, Touches;
    match s
    case DeclStr(x, e) => GenSMoves(p, e, Declare(cg, x));
    case AssignStr(x, e) => GenSMoves(p, e, cg);
    case DeclInt(_, e) => GenIMoves(e, cg);
    case AssignInt(_, e) => GenIMoves(e, cg);
    case Eval(e) => GenSMoves(p, e, cg);
    case Return(e) => GenSMoves(p, e, cg);
    case Block(body) => AcceptedBlock(p, body, cg);
    case If(_, _, _) => AcceptedIf(p, s, cg);
    case While(_, _) => AcceptedWhile(p, s, cg);
    case ForRange(_, _, _, _) => AcceptedRange(p, s, cg);
    case Forever(body) => AcceptedBlock(p, body, EnterForever(cg));
    case _ =>
  }

  lemma {:induction false} AcceptedIf(p: Program, s: Stmt, cg: CG)
    requires Ok(cg) && cg.scopes != [] && cg.loops.InLoop? && s.If? && !RejectsStmt(p, s, cg)
    ensures GenIf(p, s, cg).moved == cg.moved
    decreases s, 0
  {
    hide RejectsBlock, GenBlock, GenCond, MovesB;
    GenCondMoves(p, s.cond, cg);
    AcceptedBlock(p, s.thn, ThenStart(p, s, cg));
    AcceptedBlock(p, s.els, ElseStart(p, s, cg));
  }

  /** A while loop moves only what its condition moves, and nothing if it is inside a loop itself. */
  lemma {:induction false} AcceptedWhile(p: Program, s: Stmt, cg: CG)
    requires Ok(cg) && cg.scopes != [] && s.While? && !RejectsStmt(p, s, cg)
    ensures GenWhile(p, s, cg).moved == cg.moved + MovesB(p, s.cond)
    ensures cg.loops.InLoop? ==> GenWhile(p, s, cg).moved == cg.moved
    decreases s, 0
  {
    hide GenCond, OpenWhile, RejectsBlock, GenBlock, MovesB;
    GenCondMoves(p, s.cond, OpenWhile(cg));
    AcceptedBlock(p, s.body, WhileStart(p, s, cg));
  }

  lemma {:induction false} AcceptedRange(p: Program, s: Stmt, cg: CG)
    requires Ok(cg) && cg.scopes != [] && s.ForRange? && !RejectsStmt(p, s, cg)
    ensures GenRange(p, s, cg).moved == cg.moved
    decreases s, 0
  {
    hide RejectsBlock, GenBlock;
    AcceptedBlock(p, s.body, RangeStart(s, cg));
  }

  lemma {:induction false} AcceptedBlock(p: Program, ss: seq<Stmt>, cg: CG)
    requires Ok(cg) && cg.loops.InLoop? && !RejectsBlock(p, ss, cg)
    ensures GenBlock(p, ss, cg).moved == cg.moved
    decreases ss, 1
  {
    hide GenStmts, RejectsStmts, ReleaseVars;
    AcceptedStmts(p, ss, PushScope(cg));
  }

  lemma {:induction false} AcceptedStmts(p: Program, ss: seq<Stmt>, cg: CG)
    requires Ok(cg) && cg.scopes != [] && cg.loops.InLoop? && !RejectsStmts(p, ss, cg)
    ensures GenStmts(p, ss, cg).moved == cg.moved
    decreases ss, 0
  {
    hide GenStmt, RejectsStmt, ReleaseTemps;
    if ss != [] && !Terminated(cg) {
      AcceptedMovesNothing(p, ss[0], cg);
      AcceptedStmts(p, ss[1..], ReleaseTemps(GenStmt(p, ss[0], cg)));
    }
  }

  /** Every loop in the statement, however nested, ends its turns with the moved set it began them with. */
  predicate TurnsAlike(p: Program, s: Stmt, cg: CG)
    requires Ok(cg) && cg.scopes != []
    decreases s, 1
  {
    match s
    case Block(body) => BlockTurnsAlike(p, body, cg)
    case If(_, thn, els) => BlockTurnsAlike(p, thn, ThenStart(p, s, cg)) && BlockTurnsAlike(p, els, ElseStart(p, s, cg))
    case While(_, body) => TurnAlike(p, body, WhileStart(p, s, cg)) && BlockTurnsAlike(p, body, WhileStart(p, s, cg))
    case ForRange(_, _, _, body) => TurnAlike(p, body, RangeStart(s, cg)) && BlockTurnsAlike(p, body, RangeStart(s, cg))
    case Forever(body) => TurnAlike(p, body, EnterForever(cg)) && BlockTurnsAlike(p, body, EnterForever(cg))
    case _ => true
  }

  predicate TurnAlike(p: Program, body: seq<Stmt>, start: CG)
    requires Ok(start)
  {
    GenBlock(p, body, start).moved == start.moved
  }

  predicate BlockTurnsAlike(p: Program, ss: seq<Stmt>, cg: CG)
    requires Ok(cg)
    decreases ss, 1
  {
    StmtsTurnAlike(p, ss, PushScope(cg))
  }

  predicate StmtsTurnAlike(p: Program, ss: seq<Stmt>, cg: CG)
    requires Ok(cg) && cg.scopes != []
    decreases ss, 0
  {
    ss != [] && !Terminated(cg) ==>
      TurnsAlike(p, ss[0], cg) && StmtsTurnAlike(p, ss[1..], ReleaseTemps(GenStmt(p, ss[0], cg)))
  }

  lemma {:induction false} AcceptedTurns(p: Program, s: Stmt, cg: CG)
    requires Ok(cg) && cg.scopes != [] && !RejectsStmt(p, s, cg)
    ensures TurnsAlike(p, s, cg)
    decreases s, 1
  {
    hide RejectsBlock, BlockTurnsAlike, GenBlock, MovesB, MovesS, ThenStart, ElseStart, WhileStart, RangeStart, EnterForever;
    match s
    case Block(body) => AcceptedBlockTurns(p, body, cg);
    case If(_, thn, els) =>
      AcceptedBlockTurns(p, thn, ThenStart(p, s, cg));
      AcceptedBlockTurns(p, els, ElseStart(p, s, cg));
    case While(_, body) =>
      AcceptedBlock(p, body, WhileStart(p, s, cg));
      AcceptedBlockTurns(p, body, WhileStart(p, s, cg));
    case ForRange(_, _, _, body) =>
      AcceptedBlock(p, body, RangeStart(s, cg));
      AcceptedBlockTurns(p, body, RangeStart(s, cg));
    case Forever(body) =>
      AcceptedBlock(p, body, EnterForever(cg));
      AcceptedBlockTurns(p, body, EnterForever(cg));
    case _ =>
  }

  lemma {:induction false} AcceptedBlockTurns(p: Program, ss: seq<Stmt>, cg: CG)
    requires Ok(cg) && !RejectsBlock(p, ss, cg)
    ensures BlockTurnsAlike(p, ss, cg)
    decreases ss, 1
  {
    AcceptedStmtsTurns(p, ss, PushScope(cg));
  }

  lemma {:induction false} AcceptedStmtsTurns(p: Program, ss: seq<Stmt>, cg: CG)
    requires Ok(cg) && cg.scopes != [] && !RejectsStmts(p, ss, cg)
    ensures StmtsTurnAlike(p, ss, cg)
    decreases ss, 0
  {
    hide GenStmt, RejectsStmt, TurnsAlike, ReleaseTemps;
    if ss != [] && !Terminated(cg) {
      AcceptedTurns(p, ss[0], cg);
      AcceptedStmtsTurns(p, ss[1..], ReleaseTemps(GenStmt(p, ss[0], cg)));
    }
  }

  /** In the code of an accepted function every turn of every loop starts from the same moved set. */
  lemma AcceptedFunction(p: Program, f: Fun)
    requires !SomeMovesInLoop(p, f.body, false)
    ensures BlockTurnsAlike(p, f.body, Prologue(f))
  {
    hide RejectsBlock, SomeMovesInLoop, BlockTurnsAlike, Prologue;
    FunctionIsText(p, f);
    AcceptedBlockTurns(p, f.body, Prologue(f));
  }

  lemma ProgramIsText(p: Program)
    ensures forall k :: 0 <= k < |p| ==> (RejectsFun(p, p[k]) <==> SomeMovesInLoop(p, p[k].body, false))
    ensures forall k :: 0 <= k < |p| && !SomeMovesInLoop(p, p[k].body, false) ==> BlockTurnsAlike(p, p[k].body, Prologue(p[k]))
  {
    hide RejectsFun, SomeMovesInLoop, BlockTurnsAlike, Prologue;
    forall k | 0 <= k < |p|
      ensures RejectsFun(p, p[k]) <==> SomeMovesInLoop(p, p[k].body, false)
      ensures SomeMovesInLoop(p, p[k].body, false) || BlockTurnsAlike(p, p[k].body, Prologue(p[k]))
    {
      FunctionIsText(p, p[k]);
      if !SomeMovesInLoop(p, p[k].body, false) { AcceptedFunction(p, p[k]); }
    }
  }
}
