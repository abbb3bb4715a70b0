/**
 What the code generator emits, as a function of its compile-time state.

 `CG` is that state: the basic blocks built so far and the insertion block, the string scope
 stack, the pending statement temporaries, the moved-variable set and the loop targets.
 Every `Gen...` function maps a state to the state after emission; the class `CodeGen`
 performs the same emission by updating its fields. Emission only ever appends to blocks,
 which is what `Grows` records.
 */
module Lowering {
  import opened Source
  import opened Machine

  /** The loop-target stack, innermost loop first. */
  datatype Loops = NoLoop | InLoop(continueTo: nat, breakTo: nat, outer: Loops)

  datatype CG = CG(blocks: Blocks, cur: nat, next: Reg, scopes: seq<seq<Var>>,
                   temps: seq<Reg>, moved: set<Var>, loops: Loops)

  predicate Ok(cg: CG) {
    cg.cur < |cg.blocks|
  }

  predicate Prefixes(a: Blocks, b: Blocks) {
    |a| <= |b| && forall k :: 0 <= k < |a| ==> a[k] <= b[k]
  }

  /** Only the insertion block and blocks created since have been written. */
  predicate Spares(a: CG, b: CG) {
    && Prefixes(a.blocks, b.blocks)
    && forall k :: 0 <= k < |a.blocks| && k != a.cur ==> b.blocks[k] == a.blocks[k]
  }

  /** ... and the insertion point is in one of them. */
  predicate Touches(a: CG, b: CG) {
    Spares(a, b) && (b.cur == a.cur || |a.blocks| <= b.cur)
  }

  predicate Grows(a: CG, b: CG) {
    && Ok(b)
    && Touches(a, b)
    && a.next <= b.next
    && a.loops == b.loops
    && a.moved <= b.moved
  }

  /** Emission of an expression: scopes are left alone and temporaries are only added. */
  predicate Extends(a: CG, b: CG) {
    Grows(a, b) && a.scopes == b.scopes && a.temps <= b.temps
  }

  /** Emission of a statement: only the innermost scope may gain variables. */
  predicate Follows(a: CG, b: CG) {
    && Grows(a, b)
    && |b.scopes| == |a.scopes| > 0
    && b.scopes[..|b.scopes| - 1] == a.scopes[..|b.scopes| - 1]
    && a.scopes[|b.scopes| - 1] <= b.scopes[|b.scopes| - 1]
  }

  /** Emission of a loop header, up to the loop targets it pushes. */
  predicate Opens(a: CG, b: CG, continueTo: nat, breakTo: nat) {
    && Ok(b)
    && Spares(a, b)
    && a.next <= b.next
    && b.loops == InLoop(continueTo, breakTo, a.loops)
    && a.moved <= b.moved
    && b.scopes == a.scopes
  }

  lemma SparesTrans(a: CG, b: CG, c: CG)
    requires Touches(a, b) && Spares(b, c)
    ensures Spares(a, c)
  {
  }

  lemma HeaderGrows(a: CG, b: CG, c: CG)
    requires Grows(a, b) && Extends(b, c)
    ensures Ok(b) && Ok(c) && |a.blocks| <= |b.blocks| <= |c.blocks|
  {
  }

  /** Opening a block of its own first, then evaluating the condition, then branching. */
  lemma OpensTrans(a: CG, b: CG, c: CG, d: CG, continueTo: nat, breakTo: nat)
    requires Grows(a, b) && b.scopes == a.scopes && |a.blocks| <= b.cur
    requires Extends(b, c) && Opens(c, d, continueTo, breakTo)
    ensures Opens(a, d, continueTo, breakTo)
  {
  }

  lemma FollowsSelf(a: CG)
    requires Ok(a) && a.scopes != []
    ensures Follows(a, a)
  {
  }

  lemma FollowsTrans(a: CG, b: CG, c: CG)
    requires Follows(a, b) && Grows(b, c) && (c.scopes == b.scopes || Follows(b, c))
    ensures Follows(a, c)
  {
  }

  // ---- The builder ----

  function Here(cg: CG): nat
    requires Ok(cg)
  {
    |cg.blocks[cg.cur]|
  }

  predicate Terminated(cg: CG)
    requires Ok(cg)
  {
    Here(cg) > 0 && cg.blocks[cg.cur][Here(cg) - 1].IsTerminator()
  }

  function Emit(cg: CG, i: Instr): (r: CG)
    requires Ok(cg)
    ensures Extends(cg, r) && Here(r) == Here(cg) + 1 && r.blocks[r.cur][Here(cg)] == i
  {
    cg.(blocks := cg.blocks[cg.cur := cg.blocks[cg.cur] + [i]])
  }

  /** Take the next register. */
  function Fresh(cg: CG): (r: CG)
    requires Ok(cg)
    ensures Extends(cg, r)
  {
    cg.(next := cg.next + 1)
  }

  /** Append `k` empty blocks. */
  function AddBlocks(cg: CG, k: nat): (r: CG)
    requires Ok(cg)
    ensures Extends(cg, r) && |r.blocks| == |cg.blocks| + k
    ensures forall b :: |cg.blocks| <= b < |r.blocks| ==> r.blocks[b] == []
  {
    cg.(blocks := cg.blocks + seq(k, _ => []))
  }

  function SetInsertPoint(cg: CG, b: nat): (r: CG)
    requires Ok(cg) && b < |cg.blocks|
    ensures Ok(r)
  {
    cg.(cur := b)
  }

  // ---- Statement temporaries ----

  function TrackTemp(cg: CG, r: Reg): (res: CG)
    requires Ok(cg)
    ensures Extends(cg, res)
  {
    cg.(temps := cg.temps + [r])
  }

  /** Drop the first occurrence of `r`, if any. */
  function Without(ts: seq<Reg>, r: Reg): seq<Reg> {
    if ts == [] then []
    else if ts[0] == r then ts[1..]
    else [ts[0]] + Without(ts[1..], r)
  }

  function UntrackTemp(cg: CG, r: Reg): (res: CG)
    requires Ok(cg)
    ensures Grows(cg, res) && cg.scopes == res.scopes
  {
    cg.(temps := Without(cg.temps, r))
  }

  function EmitReleases(cg: CG, rs: seq<Reg>): (r: CG)
    requires Ok(cg)
    ensures Extends(cg, r) && r.temps == cg.temps && r.moved == cg.moved && r.cur == cg.cur
    ensures |r.blocks| == |cg.blocks|
    decreases rs
  {
    if rs == [] then cg
    else EmitReleases(Emit(cg, StringRelease(rs[0])), rs[1..])
  }

  /** Release the temporaries born since `mark` and forget them. */
  function FlushSince(cg: CG, mark: nat): (r: CG)
    requires Ok(cg) && mark <= |cg.temps|
    ensures Grows(cg, r) && r.scopes == cg.scopes && r.temps == cg.temps[..mark]
    ensures r.moved == cg.moved && r.cur == cg.cur && |r.blocks| == |cg.blocks|
  {
    EmitReleases(cg, cg.temps[mark..]).(temps := cg.temps[..mark])
  }

  /** Release every pending temporary; in a terminated block only forget them. */
  function ReleaseTemps(cg: CG): (r: CG)
    requires Ok(cg)
    ensures Grows(cg, r) && r.scopes == cg.scopes && r.temps == []
    ensures r.moved == cg.moved && r.cur == cg.cur && |r.blocks| == |cg.blocks|
  {
    if Terminated(cg) then cg.(temps := []) else FlushSince(cg, 0)
  }

  // ---- Expressions ----

  /** Integer expressions append straight-line code. */
  function GenI(e: IExpr, cg: CG): (r: (CG, Operand))
    requires Ok(cg)
    ensures Extends(cg, r.0) && r.0.cur == cg.cur && |r.0.blocks| == |cg.blocks|
    ensures r.0.moved == cg.moved && r.0.temps == cg.temps
    decreases e
  {
    match e
    case IntLit(n) => (cg, Imm(n))
    case IVar(x) => (Emit(Fresh(cg), LoadInt(cg.next, x)), Tmp(cg.next))
    case Arith(op, l, r) =>
      var (c1, i) := GenI(l, cg);
      var (c2, j) := GenI(r, c1);
      (Emit(Fresh(c2), IntArith(c2.next, op, i, j)), Tmp(c2.next))
  }

  /** Emit a string-producing instruction whose result is a statement temporary. */
  function EmitTemp(cg: CG, i: Instr): (r: (CG, Reg))
    requires Ok(cg)
    ensures Extends(cg, r.0)
  {
    (TrackTemp(Emit(Fresh(cg), i), cg.next), cg.next)
  }

  function ParamsOf(p: Program, f: nat): seq<Var> {
    if f < |p| then p[f].params else []
  }

  /** The `own` variables that a call hands to `own` parameters. */
  function OwnMoves(args: seq<SExpr>, params: seq<Var>): set<Var>
  {
    if args == [] || params == [] then {}
    else
      (if args[0].SVar? && args[0].x.own && params[0].own then {args[0].x} else {})
      + OwnMoves(args[1..], params[1..])
  }

  function GenS(p: Program, e: SExpr, cg: CG): (r: (CG, Reg))
    requires Ok(cg)
    ensures Extends(cg, r.0)
    decreases e
  {
    match e
    case Lit(t) => EmitTemp(cg, CreateStatic(cg.next, t))
    case SVar(x) => (Emit(Fresh(cg), LoadStr(cg.next, x)), cg.next)
    case Concat(l, r) =>
      var (c1, a) := GenS(p, l, cg);
      var (c2, b) := GenS(p, r, c1);
      EmitTemp(c2, ConcatStr(c2.next, a, b))
    case Call(f, args) =>
      var (c1, regs) := GenArgs(p, args, cg);
      var c2 := c1.(moved := c1.moved + OwnMoves(args, ParamsOf(p, f)));
      EmitTemp(c2, CallFn(c2.next, f, regs))
  }

  function GenArgs(p: Program, es: seq<SExpr>, cg: CG): (r: (CG, seq<Reg>))
    requires Ok(cg)
    ensures Extends(cg, r.0) && |r.1| == |es|
    decreases es
  {
    if es == [] then (cg, [])
    else
      var (c1, rs) := GenArgs(p, es[..|es| - 1], cg);
      var (c2, r) := GenS(p, es[|es| - 1], c1);
      (c2, rs + [r])
  }

  /**
   Conditions; the operand is nonzero exactly when the condition holds. `&&` and `||`
   evaluate their right side in a block of its own.
   */
  function GenB(p: Program, e: BExpr, cg: CG): (r: (CG, Operand))
    requires Ok(cg)
    ensures Extends(cg, r.0)
    decreases e, 1
  {
    match e
    case Truthy(i) => GenI(i, cg)
    case Cmp(op, l, r) =>
      var (c1, v) := GenI(l, cg);
      var (c2, w) := GenI(r, c1);
      (Emit(Fresh(c2), IntCmp(c2.next, op, v, w)), Tmp(c2.next))
    case StrCmp(equal, l, r) => GenStrCmp(p, equal, l, r, cg)
    case Logic(_, _, _) => GenLogic(p, e, cg)
  }

  /** String comparison calls the runtime; `!=` negates its answer. */
  function GenStrCmp(p: Program, equal: bool, l: SExpr, r: SExpr, cg: CG): (res: (CG, Operand))
    requires Ok(cg)
    ensures Extends(cg, res.0)
  {
    var (c1, a) := GenS(p, l, cg);
    var (c2, b) := GenS(p, r, c1);
    FinishStrCmp(equal, a, b, c2)
  }

  function FinishStrCmp(equal: bool, a: Reg, b: Reg, c2: CG): (res: (CG, Operand))
    requires Ok(c2)
    ensures Extends(c2, res.0)
  {
    var c3 := Emit(Fresh(c2), StringEquals(c2.next, a, b));
    if equal then (c3, Tmp(c2.next)) else (Emit(Fresh(c3), NotBool(c3.next, Tmp(c2.next))), Tmp(c3.next))
  }

  function GenLogic(p: Program, e: BExpr, cg: CG): (r: (CG, Operand))
    requires Ok(cg) && e.Logic?
    ensures Extends(cg, r.0)
    decreases e, 0
  {
    hide OpenRight, CloseRight;
    var (c1, v) := GenB(p, e.bl, cg);
    var c2 := OpenRight(c1, v, e.isAnd);
    var (c3, w) := GenB(p, e.br, c2);
    CloseRight(c1, c2, c3, w, e.isAnd)
  }

  /**
   After the left operand `v`: create the right-hand block and the merge block, branch, and
   continue in the right-hand block. The blocks are |c1.blocks| and |c1.blocks| + 1; `&&`
   skips the right side on false, `||` on true. The left value is first compared with zero.
   */
  function OpenRight(c1: CG, v: Operand, isAnd: bool): (r: CG)
    requires Ok(c1)
    ensures Extends(c1, r) && r.temps == c1.temps && r.moved == c1.moved && |r.blocks| == |c1.blocks| + 2
    ensures r.cur == |c1.blocks| && r.blocks[r.cur] == [] && r.blocks[r.cur + 1] == []
    ensures r.next == c1.next + 1
  {
    var rhs := |c1.blocks|;
    var c := AddBlocks(Emit(Fresh(c1), IntCmp(c1.next, Ne, v, Imm(0))), 2);
    var br := if isAnd then CondBr(Tmp(c1.next), rhs, rhs + 1) else CondBr(Tmp(c1.next), rhs + 1, rhs);
    SetInsertPoint(Emit(c, br), rhs)
  }

  /** The right-hand end: `w` is compared with zero and the temporaries born there are released. */
  function RightEnd(c1: CG, c3: CG, w: Operand): (r: CG)
    requires Ok(c1) && Ok(c3) && c1.temps <= c3.temps
    ensures Grows(c3, r) && r.scopes == c3.scopes && r.temps == c1.temps && r.moved == c3.moved && r.cur == c3.cur
  {
    FlushSince(Emit(Fresh(c3), IntCmp(c3.next, Ne, w, Imm(0))), |c1.temps|)
  }

  /** Branch to the merge block, which is still empty. */
  function JoinRight(c1: CG, c2: CG, c3: CG, w: Operand): (r: CG)
    requires Ok(c1) && Extends(c1, c2) && Extends(c2, c3)
    requires |c2.blocks| == |c1.blocks| + 2 && c2.cur == |c1.blocks| && c2.blocks[|c1.blocks| + 1] == []
    ensures Grows(c1, r) && r.scopes == c1.scopes && r.temps == c1.temps && r.moved == c3.moved
    ensures Prefixes(c3.blocks, r.blocks) && c3.next <= r.next
    ensures r.cur == |c1.blocks| + 1 && r.blocks[r.cur] == []
  {
    var merge := |c1.blocks| + 1;
    SetInsertPoint(Emit(RightEnd(c1, c3, w), Br(merge)), merge)
  }

  /** Select the result by the edge taken. */
  function CloseRight(c1: CG, c2: CG, c3: CG, w: Operand, isAnd: bool): (r: (CG, Operand))
    requires Ok(c1) && Extends(c1, c2) && Extends(c2, c3)
    requires |c2.blocks| == |c1.blocks| + 2 && c2.cur == |c1.blocks| && c2.blocks[|c1.blocks| + 1] == []
    ensures Grows(c1, r.0) && r.0.scopes == c1.scopes && r.0.temps == c1.temps && r.0.moved == c3.moved
    ensures Prefixes(c3.blocks, r.0.blocks) && c3.next <= r.0.next
  {
    var c6 := JoinRight(c1, c2, c3, w);
    var phi := Phi(c6.next, if isAnd then 0 else 1, c1.cur, Tmp(c3.next), c3.cur);
    (Emit(Fresh(c6), phi), Tmp(c6.next))
  }

  /** The parts of `l && r`, with what holds of them. */
  lemma LogicIs(p: Program, e: BExpr, cg: CG)
    requires Ok(cg) && e.Logic?
    ensures
      var (c1, v) := GenB(p, e.bl, cg);
      var c2 := OpenRight(c1, v, e.isAnd);
      var (c3, w) := GenB(p, e.br, c2);
      && Extends(cg, c1) && Ok(c1) && Extends(c1, c2) && Extends(c2, c3)
      && |c2.blocks| == |c1.blocks| + 2 && c2.cur == |c1.blocks| && c2.blocks[|c1.blocks| + 1] == []
      && GenB(p, e, cg) == CloseRight(c1, c2, c3, w, e.isAnd)
  {
    hide GenB, OpenRight, CloseRight, JoinRight, Touches;
    LogicIsB(p, e, cg);
  }

  lemma LogicIsB(p: Program, e: BExpr, cg: CG)
    requires Ok(cg) && e.Logic?
    ensures GenB(p, e, cg) == GenLogic(p, e, cg)
  {
    hide GenLogic, Extends;
  }

  /** A condition to branch on: a plain integer is compared with zero first. */
  function GenCond(p: Program, e: BExpr, cg: CG): (r: (CG, Operand))
    requires Ok(cg)
    ensures Extends(cg, r.0)
  {
    var (c1, v) := GenB(p, e, cg);
    if e.Truthy? then (Emit(Fresh(c1), IntCmp(c1.next, Ne, v, Imm(0))), Tmp(c1.next)) else (c1, v)
  }

  // ---- Scope releases ----

  /** Load and release the given variables, in order, skipping the moved ones. */
  function ReleaseVars(cg: CG, xs: seq<Var>): (r: CG)
    requires Ok(cg)
    ensures Extends(cg, r) && r.temps == cg.temps && r.moved == cg.moved
    decreases xs
  {
    if xs == [] then cg
    else if xs[0] in cg.moved then ReleaseVars(cg, xs[1..])
    else
      ReleaseVars(Emit(Emit(Fresh(cg), LoadStr(cg.next, xs[0])), StringRelease(cg.next)), xs[1..])
  }

  /** Every open scope, innermost first, each in declaration order. */
  function ReleaseOrder(scopes: seq<seq<Var>>): seq<Var> {
    if scopes == [] then [] else scopes[|scopes| - 1] + ReleaseOrder(scopes[..|scopes| - 1])
  }

  // ---- Statements ----

  function GenStmt(p: Program, s: Stmt, cg: CG): (r: CG)
    requires Ok(cg) && cg.scopes != []
    ensures Follows(cg, r)
    decreases s, 4
  {
    match s
    case DeclStr(x, e) => GenDecl(p, x, e, cg)
    case AssignStr(x, e) => GenAssign(p, x, e, cg)
    case DeclEmpty(x) => Declare(cg, x)
    case DeclInt(x, e) => GenStoreInt(x, e, cg)
    case AssignInt(x, e) => GenStoreInt(x, e, cg)
    case Eval(e) => GenS(p, e, cg).0
    case Return(e) => GenReturn(p, e, cg)
    case Break => GenBreak(cg)
    case Continue => GenContinue(cg)
    case Block(body) => GenBlock(p, body, cg)
    case If(_, _, _) => GenIf(p, s, cg)
    case While(_, _) => GenWhile(p, s, cg)
    case ForRange(_, _, _, _) => GenRange(p, s, cg)
    case Forever(_) => GenForever(p, s, cg)
  }

  function GenStoreInt(x: Var, e: IExpr, cg: CG): (r: CG)
    requires Ok(cg)
    ensures Extends(cg, r)
  {
    var (c1, v) := GenI(e, cg);
    Emit(c1, StoreInt(x, v))
  }

  function GenBreak(cg: CG): (r: CG)
    requires Ok(cg)
    ensures Extends(cg, r)
  {
    if cg.loops.NoLoop? then cg else Emit(cg, Br(cg.loops.breakTo))
  }

  function GenContinue(cg: CG): (r: CG)
    requires Ok(cg)
    ensures Extends(cg, r)
  {
    if cg.loops.NoLoop? then cg else Emit(cg, Br(cg.loops.continueTo))
  }

  /**
   An if statement. Blocks b, b + 1 and b + 2, where b is `IfBase`, are then, else and merge;
   the else branch starts from the moved set of before, and afterwards a move in either
   branch counts.
   */
  function GenIf(p: Program, s: Stmt, cg: CG): (r: CG)
    requires Ok(cg) && s.If?
    ensures Grows(cg, r) && r.scopes == cg.scopes && Here(r) == 0
    decreases s, 3
  {
    var c3 := ThenEnd(p, s, cg);
    var c5 := ElseEnd(p, s, cg);
    c5.(cur := IfBase(p, s, cg) + 2, moved := c5.moved + c3.moved)
  }

  function IfBase(p: Program, s: Stmt, cg: CG): nat
    requires Ok(cg) && s.If?
  {
    |GenCond(p, s.cond, cg).0.blocks|
  }

  function ThenStart(p: Program, s: Stmt, cg: CG): (r: CG)
    requires Ok(cg) && s.If?
    ensures Grows(cg, r) && r.scopes == cg.scopes && r.temps == []
    ensures r.moved == GenCond(p, s.cond, cg).0.moved && |r.blocks| == IfBase(p, s, cg) + 3
    ensures r.cur == IfBase(p, s, cg) && forall b :: r.cur <= b < |r.blocks| ==> r.blocks[b] == []
  {
    var (c1, v) := GenCond(p, s.cond, cg);
    SplitIf(c1, v)
  }

  function ThenEnd(p: Program, s: Stmt, cg: CG): (r: CG)
    requires Ok(cg) && s.If?
    ensures Grows(ThenStart(p, s, cg), r) && r.scopes == cg.scopes
    ensures |r.blocks| >= IfBase(p, s, cg) + 3
    decreases s, 0
  {
    JoinTo(GenBlock(p, s.thn, ThenStart(p, s, cg)), IfBase(p, s, cg) + 2)
  }

  function ElseStart(p: Program, s: Stmt, cg: CG): (r: CG)
    requires Ok(cg) && s.If?
    ensures Grows(cg, r) && r.scopes == cg.scopes
    ensures r.blocks == ThenEnd(p, s, cg).blocks && r.next == ThenEnd(p, s, cg).next
    ensures r.cur == IfBase(p, s, cg) + 1 && r.blocks[r.cur] == [] && r.blocks[r.cur + 1] == []
    ensures r.moved == ThenStart(p, s, cg).moved
    decreases s, 1
  {
    ThenEnd(p, s, cg).(cur := IfBase(p, s, cg) + 1, moved := ThenStart(p, s, cg).moved)
  }

  function ElseEnd(p: Program, s: Stmt, cg: CG): (r: CG)
    requires Ok(cg) && s.If?
    ensures Grows(ElseStart(p, s, cg), r) && r.scopes == cg.scopes
    decreases s, 2
  {
    JoinTo(GenBlock(p, s.els, ElseStart(p, s, cg)), IfBase(p, s, cg) + 2)
  }

  /** A while loop: blocks b, b + 1 and b + 2 are the condition, the body and the exit. */
  function GenWhile(p: Program, s: Stmt, cg: CG): (r: CG)
    requires Ok(cg) && s.While?
    ensures Grows(cg, r) && r.scopes == cg.scopes
    decreases s, 0
  {
    var c4 := JoinTo(GenBlock(p, s.body, WhileStart(p, s, cg)), |cg.blocks|);
    LeaveLoop(c4, |cg.blocks| + 2)
  }

  function WhileStart(p: Program, s: Stmt, cg: CG): (r: CG)
    requires Ok(cg) && s.While?
    ensures Opens(cg, r, |cg.blocks|, |cg.blocks| + 2) && r.temps == []
    ensures r.cur == |cg.blocks| + 1 && |cg.blocks| + 3 <= |r.blocks|
  {
    hide GenCond, OpenWhile, EnterWhile;
    var (c2, v) := GenCond(p, s.cond, OpenWhile(cg));
    HeaderGrows(cg, OpenWhile(cg), c2);
    OpensTrans(cg, OpenWhile(cg), c2, EnterWhile(c2, v, |cg.blocks|), |cg.blocks|, |cg.blocks| + 2);
    EnterWhile(c2, v, |cg.blocks|)
  }

  /** A range loop: blocks b.. are the condition, the body, the increment and the exit. */
  function GenRange(p: Program, s: Stmt, cg: CG): (r: CG)
    requires Ok(cg) && s.ForRange?
    ensures Grows(cg, r) && r.scopes == cg.scopes
    decreases s, 0
  {
    hide JoinTo, RangeStart, LeaveRange;
    var c4 := JoinTo(GenBlock(p, s.body, RangeStart(s, cg)), |cg.blocks| + 2);
    LeaveRange(c4, s.ix, |cg.blocks|)
  }

  function RangeStart(s: Stmt, cg: CG): (r: CG)
    requires Ok(cg) && s.ForRange?
    ensures Opens(cg, r, |cg.blocks| + 2, |cg.blocks| + 3) && r.moved == cg.moved && r.temps == cg.temps
    ensures r.cur == |cg.blocks| + 1 && |cg.blocks| + 4 == |r.blocks|
  {
    hide Bounds, EnterRange, Spares, Touches;
    var (c2, v, w) := Bounds(s.lo, s.hi, cg);
    var c3 := EnterRange(c2, s.ix, v, w, |cg.blocks|);
    SparesTrans(cg, c2, c3);
    c3
  }

  function Bounds(lo: IExpr, hi: IExpr, cg: CG): (r: (CG, Operand, Operand))
    requires Ok(cg)
    ensures Extends(cg, r.0) && r.0.cur == cg.cur && |r.0.blocks| == |cg.blocks|
    ensures r.0.moved == cg.moved && r.0.temps == cg.temps
  {
    hide GenI;
    var (c1, v) := GenI(lo, cg);
    var (c2, w) := GenI(hi, c1);
    (c2, v, w)
  }

  /** An infinite loop: blocks b and b + 1 are the body and the exit. */
  function GenForever(p: Program, s: Stmt, cg: CG): (r: CG)
    requires Ok(cg) && s.Forever?
    ensures Grows(cg, r) && r.scopes == cg.scopes
    decreases s, 0
  {
    var c1 := EnterForever(cg);
    var c2 := JoinTo(GenBlock(p, s.body, c1), |cg.blocks|);
    LeaveLoop(c2, |cg.blocks| + 1)
  }

  function PushScope(cg: CG): (r: CG)
    requires Ok(cg)
    ensures Grows(cg, r)
  {
    cg.(scopes := cg.scopes + [[]])
  }

  function PopScope(cg: CG): (r: CG)
    requires Ok(cg) && cg.scopes != []
    ensures Grows(cg, r)
  {
    cg.(scopes := cg.scopes[..|cg.scopes| - 1])
  }

  /** A braced block: a scope of its own, released on fall-through, and popped. */
  function GenBlock(p: Program, ss: seq<Stmt>, cg: CG): (r: CG)
    requires Ok(cg)
    ensures Grows(cg, r) && r.scopes == cg.scopes && (cg.temps == [] ==> r.temps == [])
    decreases ss, 1
  {
    var c1 := GenStmts(p, ss, PushScope(cg));
    PopScope(if Terminated(c1) then c1 else ReleaseVars(c1, c1.scopes[|c1.scopes| - 1]))
  }

  /** Statements up to the first one that ends the block, temporaries flushed after each. */
  function GenStmts(p: Program, ss: seq<Stmt>, cg: CG): (r: CG)
    requires Ok(cg) && cg.scopes != []
    ensures Follows(cg, r) && (cg.temps == [] ==> r.temps == [])
    decreases ss, 0
  {
    hide GenStmt, ReleaseTemps, Spares;
    FollowsSelf(cg);
    if ss == [] || Terminated(cg) then cg
    else
      var c1 := GenStmt(p, ss[0], cg);
      FollowsTrans(cg, c1, ReleaseTemps(c1));
      FollowsTrans(cg, ReleaseTemps(c1), GenStmts(p, ss[1..], ReleaseTemps(c1)));
      GenStmts(p, ss[1..], ReleaseTemps(GenStmt(p, ss[0], cg)))
  }

  /** Record a tracked string local in the innermost scope. */
  function Declare(cg: CG, x: Var): (r: CG)
    requires Ok(cg) && cg.scopes != []
    ensures Follows(cg, r)
    ensures r.scopes[|r.scopes| - 1] == cg.scopes[|r.scopes| - 1] + [x]
  {
    var n := |cg.scopes| - 1;
    cg.(scopes := cg.scopes[n := cg.scopes[n] + [x]])
  }

  predicate IsMove(x: Var, e: SExpr) {
    x.own && e.SVar? && e.x.own
  }

  function MarkMove(cg: CG, x: Var, e: SExpr): (r: CG)
    requires Ok(cg)
    ensures Grows(cg, r) && r.scopes == cg.scopes && r.temps == cg.temps
  {
    if IsMove(x, e) then cg.(moved := cg.moved + {e.x}) else cg
  }

  /** An initialised string local. A copy of another variable retains, unless it is a move. */
  function GenDecl(p: Program, x: Var, e: SExpr, cg: CG): (r: CG)
    requires Ok(cg) && cg.scopes != []
    ensures Follows(cg, r)
    ensures r.scopes == Declare(cg, x).scopes
  {
    var (c1, a) := GenS(p, e, Declare(cg, x));
    var c2 := if e.SVar? && !IsMove(x, e) then Emit(c1, StringRetain(a)) else c1;
    MarkMove(UntrackTemp(Emit(c2, StoreStr(x, a)), a), x, e)
  }

  /** Plain assignment: the old value is released after the new one was computed. */
  function GenAssign(p: Program, x: Var, e: SExpr, cg: CG): (r: CG)
    requires Ok(cg)
    ensures Grows(cg, r) && r.scopes == cg.scopes
  {
    var (c1, a) := GenS(p, e, cg);
    var c2 := Emit(Fresh(c1), LoadStr(c1.next, x));
    var c3 := UntrackTemp(Emit(c2, StringRelease(c1.next)), a);
    MarkMove(Emit(c3, StoreStr(x, a)), x, e)
  }

  /** Retain the result, release the temporaries and every open scope, and return. */
  function GenReturn(p: Program, e: SExpr, cg: CG): (r: CG)
    requires Ok(cg)
    ensures Grows(cg, r) && r.scopes == cg.scopes
  {
    hide GenS, Emit, ReleaseTemps, ReleaseVars, ReleaseOrder;
    var (c1, a) := GenS(p, e, cg);
    var c2 := ReleaseTemps(Emit(c1, StringRetain(a)));
    var c3 := ReleaseVars(c2, ReleaseOrder(c2.scopes));
    Emit(c3, Machine.Ret(a))
  }

  /** Flush condition temporaries, create then/else/merge, branch, continue in `then`. */
  function SplitIf(c1: CG, v: Operand): (r: CG)
    requires Ok(c1)
    ensures Grows(c1, r) && r.scopes == c1.scopes && r.temps == []
    ensures |r.blocks| == |c1.blocks| + 3 && r.cur == |c1.blocks| && r.moved == c1.moved
    ensures forall b :: r.cur <= b < |r.blocks| ==> r.blocks[b] == []
  {
    var t := |c1.blocks|;
    SetInsertPoint(Emit(AddBlocks(ReleaseTemps(c1), 3), CondBr(v, t, t + 1)), t)
  }

  /** Fall through to block `b` unless the current block already ended. */
  function JoinTo(cg: CG, b: nat): (r: CG)
    requires Ok(cg)
    ensures Grows(cg, r) && r.scopes == cg.scopes && r.temps == cg.temps && r.moved == cg.moved
  {
    if Terminated(cg) then cg else Emit(cg, Br(b))
  }

  /** Blocks |cg.blocks|.. are the condition, the body and the exit. */
  function OpenWhile(cg: CG): (r: CG)
    requires Ok(cg)
    ensures Grows(cg, r) && r.scopes == cg.scopes && r.temps == cg.temps && r.moved == cg.moved
    ensures |r.blocks| == |cg.blocks| + 3 && r.cur == |cg.blocks|
  {
    SetInsertPoint(Emit(AddBlocks(cg, 3), Br(|cg.blocks|)), |cg.blocks|)
  }

  function PushLoop(cg: CG, cont: nat, brk: nat): (r: CG)
    requires Ok(cg)
    ensures Ok(r)
  {
    cg.(loops := InLoop(cont, brk, cg.loops))
  }

  function EnterWhile(c2: CG, v: Operand, cond: nat): (r: CG)
    requires Ok(c2) && cond + 2 < |c2.blocks|
    ensures Opens(c2, r, cond, cond + 2) && r.temps == [] && r.moved == c2.moved && r.cur == cond + 1
  {
    var c := Emit(ReleaseTemps(c2), CondBr(v, cond + 1, cond + 2));
    SetInsertPoint(PushLoop(c, cond, cond + 2), cond + 1)
  }

  /** Pop the loop targets and continue in the exit block. */
  function LeaveLoop(cg: CG, exit: nat): (r: CG)
    requires Ok(cg) && exit < |cg.blocks| && cg.loops.InLoop?
    ensures Ok(r) && r == cg.(loops := cg.loops.outer, cur := exit)
  {
    cg.(loops := cg.loops.outer, cur := exit)
  }

  /** Blocks b.. are the condition, the body, the increment and the exit. */
  function EnterRange(c2: CG, x: Var, v: Operand, w: Operand, b: nat): (r: CG)
    requires Ok(c2) && b == |c2.blocks|
    ensures Opens(c2, r, b + 2, b + 3) && r.temps == c2.temps && r.moved == c2.moved
    ensures |r.blocks| == b + 4 && r.cur == b + 1
  {
    var c7 := RangeTest(RangeInit(c2, x, v), x, w, b);
    SetInsertPoint(PushLoop(c7, b + 2, b + 3), b + 1)
  }

  function RangeInit(c2: CG, x: Var, v: Operand): (r: CG)
    requires Ok(c2)
    ensures Extends(c2, r) && r.moved == c2.moved && r.temps == c2.temps
    ensures |r.blocks| == |c2.blocks| + 4 && r.cur == |c2.blocks| && r.blocks[r.cur] == []
  {
    var b := |c2.blocks|;
    SetInsertPoint(Emit(AddBlocks(Emit(c2, StoreInt(x, v)), 4), Br(b)), b)
  }

  function RangeTest(c4: CG, x: Var, w: Operand, b: nat): (r: CG)
    requires Ok(c4)
    ensures Extends(c4, r) && r.moved == c4.moved && r.temps == c4.temps && |r.blocks| == |c4.blocks|
  {
    var c5 := Emit(Fresh(c4), LoadInt(c4.next, x));
    var c6 := Emit(Fresh(c5), IntCmp(c5.next, Lt, Tmp(c4.next), w));
    Emit(c6, CondBr(Tmp(c5.next), b + 1, b + 3))
  }

  function LeaveRange(cg: CG, x: Var, b: nat): (r: CG)
    requires Ok(cg) && b + 3 < |cg.blocks| && cg.loops.InLoop?
    ensures Ok(r) && Prefixes(cg.blocks, r.blocks) && cg.next <= r.next && r.moved == cg.moved
    ensures r.loops == cg.loops.outer && r.scopes == cg.scopes && r.temps == cg.temps
    ensures r.cur == b + 3 && |r.blocks| == |cg.blocks|
    ensures forall k :: 0 <= k < |cg.blocks| && k != b + 2 ==> r.blocks[k] == cg.blocks[k]
  {
    hide CountUp;
    LeaveLoop(CountUp(SetInsertPoint(cg, b + 2), x, b), b + 3)
  }

  /** The increment block of a range loop. */
  function CountUp(c1: CG, x: Var, b: nat): (r: CG)
    requires Ok(c1)
    ensures Extends(c1, r) && r.moved == c1.moved && r.temps == c1.temps && |r.blocks| == |c1.blocks|
  {
    var c2 := Emit(Fresh(c1), LoadInt(c1.next, x));
    var c3 := Emit(Fresh(c2), IntArith(c2.next, Add, Tmp(c1.next), Imm(1)));
    Emit(Emit(c3, StoreInt(x, Tmp(c2.next))), Br(b))
  }

  function EnterForever(cg: CG): (r: CG)
    requires Ok(cg)
    ensures Opens(cg, r, |cg.blocks|, |cg.blocks| + 1)
    ensures r.temps == cg.temps && r.moved == cg.moved && |r.blocks| == |cg.blocks| + 2 && r.cur == |cg.blocks|
  {
    var b := |cg.blocks|;
    SetInsertPoint(PushLoop(Emit(AddBlocks(cg, 2), Br(b)), b, b + 1), b)
  }

  // ---- Functions ----

  function StoreArgs(cg: CG, xs: seq<Var>, k: nat): (r: CG)
    requires Ok(cg)
    ensures Extends(cg, r)
    decreases xs
  {
    if xs == [] then cg else StoreArgs(Emit(cg, StoreArg(xs[0], k)), xs[1..], k + 1)
  }

  /** The parameters a function owns and must release on return. */
  function OwnParams(xs: seq<Var>): seq<Var> {
    if xs == [] then []
    else (if xs[0].own then [xs[0]] else []) + OwnParams(xs[1..])
  }

  const EMPTY := CG([[]], 0, 0, [], [], {}, NoLoop)

  /** Argument slots, then a function-level scope of the own parameters. */
  function Prologue(f: Fun): (r: CG)
    ensures Ok(r) && r.scopes == [OwnParams(f.params)] && r.loops == NoLoop
  {
    StoreArgs(EMPTY, f.params, 0).(scopes := [OwnParams(f.params)])
  }

  function GenBody(p: Program, f: Fun): (r: CG)
    ensures Ok(r)
  {
    GenBlock(p, f.body, Prologue(f))
  }

  /** A function that can fall off its end returns the null constant there. */
  function GenFunction(p: Program, f: Fun): (r: CG)
    ensures Ok(r)
  {
    var c := GenBody(p, f);
    if Terminated(c) then c else Emit(c, RetNull)
  }

  function Compile(p: Program): (code: Code)
    ensures |code| == |p| && forall k :: 0 <= k < |p| ==> code[k] == GenFunction(p, p[k]).blocks
  {
    seq(|p|, k requires 0 <= k < |p| => GenFunction(p, p[k]).blocks)
  }
}
