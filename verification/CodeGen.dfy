/**
 The code generator itself: an object that emits instructions by updating its fields. Every
 method emits exactly what the function of module Lowering describes, unless the program
 moves an `own` variable inside a loop; exactly then the generator reports an error.
 */
module CodeGenerator {
  import opened Source
  import opened Machine
  import opened Lowering
  import opened Legality
  import opened Rejection

  datatype Option<T> = None | Some(value: T)

  /** The loop-target stack as a list, innermost first. */
  function LoopsOf(stack: seq<(nat, nat)>): (r: Loops)
    ensures r.InLoop? <==> stack != []
  {
    if stack == [] then NoLoop
    else
      var top := stack[|stack| - 1];
      InLoop(top.0, top.1, LoopsOf(stack[..|stack| - 1]))
  }

  lemma LoopsPush(stack: seq<(nat, nat)>, a: nat, b: nat)
    ensures LoopsOf(stack + [(a, b)]) == InLoop(a, b, LoopsOf(stack))
  {
    assert (stack + [(a, b)])[..|stack + [(a, b)]| - 1] == stack;
  }

  /** Releasing two groups of variables one after the other. */
  lemma {:induction false} ReleaseVarsSplit(cg: CG, xs: seq<Var>, ys: seq<Var>)
    requires Ok(cg)
    ensures ReleaseVars(cg, xs + ys) == ReleaseVars(ReleaseVars(cg, xs), ys)
    decreases |xs|
  {
    if xs == [] {
      assert xs + ys == ys;
    } else {
      assert (xs + ys)[1..] == xs[1..] + ys;
      var c1 := if xs[0] in cg.moved then cg else Emit(Emit(Fresh(cg), LoadStr(cg.next, xs[0])), StringRelease(cg.next));
      ReleaseVarsSplit(c1, xs[1..], ys);
    }
  }

  lemma Assoc<T>(a: seq<T>, b: seq<T>, c: seq<T>)
    ensures a + (b + c) == a + b + c
  {
  }

  /** A return releases inner scopes before outer ones, each scope in the order of its declarations. */
  lemma {:induction false} InnermostFirst(outer: seq<seq<Var>>, inner: seq<seq<Var>>, scope: seq<Var>)
    ensures ReleaseOrder(outer + inner) == ReleaseOrder(inner) + ReleaseOrder(outer) && ReleaseOrder([scope]) == scope
    decreases |inner|
  {
    OneScope(scope);
    if inner == [] {
      NoInner(outer);
    } else {
      var init, last := inner[..|inner| - 1], inner[|inner| - 1];
      InnermostFirst(outer, init, scope);
      assert inner == init + [last] && outer + inner == outer + init + [last];
      OneMoreScope(outer + init, last);
      OneMoreScope(init, last);
      hide ReleaseOrder;
      Assoc(last, ReleaseOrder(init), ReleaseOrder(outer));
    }
  }

  lemma OneScope(scope: seq<Var>)
    ensures ReleaseOrder([scope]) == scope
  {
    assert [scope][..0] == [] && scope + [] == scope;
  }

  lemma NoInner(outer: seq<seq<Var>>)
    ensures ReleaseOrder(outer + []) == ReleaseOrder([]) + ReleaseOrder(outer)
  {
    assert outer + [] == outer && [] + ReleaseOrder(outer) == ReleaseOrder(outer);
  }

  lemma OneMoreScope(scopes: seq<seq<Var>>, last: seq<Var>)
    ensures ReleaseOrder(scopes + [last]) == last + ReleaseOrder(scopes)
  {
    assert (scopes + [last])[..|scopes|] == scopes;
  }

  lemma EmitTempReg(cg: CG, i: Instr)
    requires Ok(cg)
    ensures EmitTemp(cg, i).1 == cg.next && |cg.blocks| <= |EmitTemp(cg, i).0.blocks|
    ensures EmitTemp(cg, i).0.scopes == cg.scopes && EmitTemp(cg, i).0.loops == cg.loops && Ok(EmitTemp(cg, i).0)
  {
  }

  lemma ReleasesStep(cg: CG, ts: seq<Reg>, i: nat)
    requires Ok(cg) && i < |ts|
    ensures EmitReleases(cg, ts[i..]) == EmitReleases(Emit(cg, StringRelease(ts[i])), ts[i + 1..])
  {
    assert ts[i..][1..] == ts[i + 1..];
  }

  lemma NoReleases(cg: CG)
    requires Ok(cg)
    ensures EmitReleases(cg, []) == cg
  {
  }

  /** One more argument. */
  lemma ArgsFrom(p: Program, es: seq<SExpr>, i: nat, cg: CG)
    requires i < |es| && Ok(cg)
    ensures
      var (c1, rs) := GenArgs(p, es[..i], cg);
      var (c2, r) := GenS(p, es[i], c1);
      GenArgs(p, es[..i + 1], cg) == (c2, rs + [r])
    ensures MovesArgs(p, es[..i + 1]) == MovesArgs(p, es[..i]) + MovesS(p, es[i])
    ensures MovesArgs(p, es[..i + 1]) <= MovesArgs(p, es)
    decreases |es|
  {
    hide GenS, MovesS;
    assert es[..i + 1][..i] == es[..i];
    if i + 1 < |es| {
      var init := es[..|es| - 1];
      assert init[..i + 1] == es[..i + 1] && init[..i] == es[..i];
      ArgsFrom(p, init, i, cg);
    } else {
      assert es[..i + 1] == es;
    }
  }

  lemma IfUnfold(p: Program, s: Stmt, cg: CG)
    requires Ok(cg) && cg.scopes != [] && s.If?
    ensures
      var (c1, v) := GenCond(p, s.cond, cg);
      var merge := |c1.blocks| + 2;
      && ThenStart(p, s, cg) == SplitIf(c1, v)
      && ThenEnd(p, s, cg) == JoinTo(GenBlock(p, s.thn, SplitIf(c1, v)), merge) && merge < |ThenEnd(p, s, cg).blocks|
      && ElseStart(p, s, cg) == ThenEnd(p, s, cg).(cur := merge - 1, moved := SplitIf(c1, v).moved)
      && ElseEnd(p, s, cg) == JoinTo(GenBlock(p, s.els, ElseStart(p, s, cg)), merge)
      && GenStmt(p, s, cg) == ElseEnd(p, s, cg).(cur := merge, moved := ElseEnd(p, s, cg).moved + ThenEnd(p, s, cg).moved)
    ensures RejectsStmt(p, s, cg)
         == (|| Rejects(cg, MovesB(p, s.cond))
             || RejectsBlock(p, s.thn, ThenStart(p, s, cg))
             || RejectsBlock(p, s.els, ElseStart(p, s, cg)))
  {
    hide GenCond, GenBlock, SplitIf, JoinTo, MovesB, RejectsBlock;
  }

  lemma WhileUnfold(p: Program, s: Stmt, cg: CG)
    requires Ok(cg) && cg.scopes != [] && s.While?
    ensures
      var b := |cg.blocks|;
      var (c2, v) := GenCond(p, s.cond, OpenWhile(cg));
      var ws := WhileStart(p, s, cg);
      && ws == PushLoop(Emit(ReleaseTemps(c2), CondBr(v, b + 1, b + 2)), b, b + 2).(cur := b + 1)
      && GenStmt(p, s, cg) == LeaveLoop(JoinTo(GenBlock(p, s.body, ws), b), b + 2)
      && OpenWhile(cg).loops == cg.loops && OpenWhile(cg).scopes == cg.scopes && b + 2 < |c2.blocks|
    ensures RejectsStmt(p, s, cg)
         == (Rejects(cg, MovesB(p, s.cond)) || RejectsBlock(p, s.body, WhileStart(p, s, cg)))
  {
    hide GenCond, GenBlock, JoinTo, MovesB, RejectsBlock, OpenWhile, Emit, ReleaseTemps;
  }

  lemma ForeverUnfold(p: Program, s: Stmt, cg: CG)
    requires Ok(cg) && cg.scopes != [] && s.Forever?
    ensures
      var b := |cg.blocks|;
      && EnterForever(cg) == PushLoop(Emit(AddBlocks(cg, 2), Br(b)), b, b + 1).(cur := b)
      && GenStmt(p, s, cg) == LeaveLoop(JoinTo(GenBlock(p, s.body, EnterForever(cg)), b), b + 1)
    ensures RejectsStmt(p, s, cg) == RejectsBlock(p, s.body, EnterForever(cg))
  {
    hide GenBlock, JoinTo, RejectsBlock, Emit, AddBlocks;
  }

  lemma RangeUnfold(p: Program, s: Stmt, cg: CG)
    requires Ok(cg) && cg.scopes != [] && s.ForRange?
    ensures
      var b := |cg.blocks|;
      var (c2, v, w) := Bounds(s.lo, s.hi, cg);
      && RangeStart(s, cg)
         == PushLoop(RangeTest(RangeInit(c2, s.ix, v), s.ix, w, b), b + 2, b + 3).(cur := b + 1)
      && GenStmt(p, s, cg) == LeaveRange(JoinTo(GenBlock(p, s.body, RangeStart(s, cg)), b + 2), s.ix, b)
    ensures RejectsStmt(p, s, cg) == RejectsBlock(p, s.body, RangeStart(s, cg))
  {
    hide GenBlock, JoinTo, RejectsBlock, RangeTest, RangeInit, Bounds, LeaveRange;
  }

  /** Storing the arguments does not look at the scope stack. */
  lemma {:induction false} StoreArgsScopes(a: CG, b: CG, xs: seq<Var>, k: nat)
    requires Ok(a) && b == a.(scopes := b.scopes)
    ensures StoreArgs(b, xs, k) == StoreArgs(a, xs, k).(scopes := b.scopes)
    decreases |xs|
  {
    if xs != [] { StoreArgsScopes(Emit(a, StoreArg(xs[0], k)), Emit(b, StoreArg(xs[0], k)), xs[1..], k + 1); }
  }

  // ---- The parts of a statement ----

  function Initialised(cg: CG, x: Var, e: SExpr, value: Reg): (r: CG)
    requires Ok(cg)
    ensures Ok(r)
  {
    UntrackTemp(Emit(if e.SVar? && !IsMove(x, e) then Emit(cg, StringRetain(value)) else cg, StoreStr(x, value)), value)
  }

  function Replaced(cg: CG, x: Var, value: Reg): (r: CG)
    requires Ok(cg)
    ensures Ok(r)
  {
    var c2 := Emit(Fresh(cg), LoadStr(cg.next, x));
    Emit(UntrackTemp(Emit(c2, StringRelease(cg.next)), value), StoreStr(x, value))
  }

  function Left(cg: CG, ret: Instr): (r: CG)
    requires Ok(cg)
    ensures Ok(r)
  {
    var c2 := ReleaseTemps(cg);
    Emit(ReleaseVars(c2, ReleaseOrder(c2.scopes)), ret)
  }

  lemma DeclUnfold(p: Program, x: Var, e: SExpr, cg: CG)
    requires Ok(cg) && cg.scopes != []
    ensures
      var (c1, a) := GenS(p, e, Declare(cg, x));
      GenDecl(p, x, e, cg) == MarkMove(Initialised(c1, x, e, a), x, e)
  {
    hide Declare, GenS, MarkMove, Emit, UntrackTemp;
  }

  lemma AssignUnfold(p: Program, x: Var, e: SExpr, cg: CG)
    requires Ok(cg)
    ensures var (c1, a) := GenS(p, e, cg); GenAssign(p, x, e, cg) == MarkMove(Replaced(c1, x, a), x, e)
  {
    hide GenS, MarkMove, Emit, UntrackTemp, Fresh;
  }

  lemma LeftGrows(cg: CG, ret: Instr)
    requires Ok(cg)
    ensures |cg.blocks| <= |Left(cg, ret).blocks|
  {
    hide ReleaseTemps, ReleaseVars, ReleaseOrder, Emit;
  }

  lemma LogicUnfold(p: Program, e: BExpr, cg: CG)
    requires Ok(cg) && e.Logic?
    ensures
      var (c1, v) := GenB(p, e.bl, cg);
      var c2 := OpenRight(c1, v, e.isAnd);
      var (c3, w) := GenB(p, e.br, c2);
      && Extends(c1, c2) && Extends(c2, c3) && GenB(p, e, cg) == CloseRight(c1, c2, c3, w, e.isAnd)
      && c1.temps <= c3.temps && |c1.blocks| + 2 <= |c3.blocks| && c1.loops == c2.loops == c3.loops == cg.loops
      && c1.scopes == c2.scopes == c3.scopes == cg.scopes && |cg.blocks| <= |c1.blocks|
    ensures GenB(p, e, cg).0.scopes == cg.scopes && |cg.blocks| <= |GenB(p, e, cg).0.blocks|
    ensures MovesB(p, e) == MovesB(p, e.bl) + MovesB(p, e.br)
  {
    hide GenB, OpenRight, CloseRight;
    LogicIs(p, e, cg);
  }

  lemma ReturnUnfold(p: Program, e: SExpr, cg: CG)
    requires Ok(cg)
    ensures var (c1, a) := GenS(p, e, cg); GenReturn(p, e, cg) == Left(Emit(c1, StringRetain(a)), Machine.Ret(a))
  {
    hide GenS, Emit, ReleaseTemps, ReleaseVars, ReleaseOrder;
  }

  // ---- The generator ----

  class CodeGen {
    const mProgram: Program
    var mBlocks: Blocks
    var mInsertBlock: nat
    var mNextValue: Reg
    var mStringScopeStack: seq<seq<Var>>
    var mTempStrings: seq<Reg>
    var mMovedVariables: set<Var>
    var mLoopStack: seq<(nat, nat)>
    var mInsideLoop: bool
    var mHasError: bool

    constructor (p: Program)
      ensures mProgram == p && !mHasError && mStringScopeStack == [] && mTempStrings == [] && mLoopStack == []
      ensures Valid() && View() == EMPTY
    {
      mProgram := p;
      mBlocks, mInsertBlock, mNextValue := [[]], 0, 0;
      mStringScopeStack, mTempStrings, mMovedVariables := [], [], {};
      mLoopStack, mInsideLoop, mHasError := [], false, false;
    }

    predicate Valid()
      reads this
    {
      mInsertBlock < |mBlocks| && (mInsideLoop <==> mLoopStack != [])
    }

    /** The compile-time state of module Lowering. */
    function View(): (cg: CG)
      reads this
    {
      CG(mBlocks, mInsertBlock, mNextValue, mStringScopeStack, mTempStrings, mMovedVariables, LoopsOf(mLoopStack))
    }

    /** What every emission leaves alone, also after an error. */
    predicate Stable(before: CG, stack: seq<(nat, nat)>, hadError: bool)
      reads this
    {
      && Valid() && |before.blocks| <= |mBlocks| && |mStringScopeStack| == |before.scopes| && mLoopStack == stack
      && (hadError ==> mHasError)
    }

    /** Emission of `after`, or an error where the program is to be rejected. */
    predicate Emits(rejected: bool, after: CG, hadError: bool)
      reads this
    {
      if rejected then mHasError else View() == after && mHasError == hadError
    }

    // ---- The builder ----

    predicate HasTerminator()
      requires Valid()
      reads this
    {
      Terminated(View())
    }

    method Insert(i: Instr)
      requires Valid()
      modifies `mBlocks
      ensures Valid() && View() == Emit(old(View()), i) && |mBlocks| == old(|mBlocks|)
    {
      mBlocks := mBlocks[mInsertBlock := mBlocks[mInsertBlock] + [i]];
    }

    method NewValue() returns (r: Reg)
      requires Valid()
      modifies `mNextValue
      ensures Valid() && r == old(mNextValue) && View() == Fresh(old(View()))
    {
      r := mNextValue;
      mNextValue := mNextValue + 1;
    }

    /** Create `k` consecutive blocks. */
    method CreateBlocks(k: nat) returns (first: nat)
      requires Valid()
      modifies `mBlocks
      ensures Valid() && first == old(|mBlocks|) && |mBlocks| == first + k && View() == AddBlocks(old(View()), k)
    {
      first := |mBlocks|;
      var i := 0;
      while i < k
        invariant i <= k && |mBlocks| == first + i && Valid()
        invariant mBlocks == old(mBlocks) + seq(i, _ => [])
      {
        mBlocks := mBlocks + [[]];
        i := i + 1;
      }
    }

    /** Compare with zero. */
    method CompareWithZero(v: Operand) returns (r: Reg)
      requires Valid()
      modifies `mBlocks, `mNextValue
      ensures Valid() && r == old(mNextValue) && |mBlocks| == old(|mBlocks|)
      ensures View() == Emit(Fresh(old(View())), IntCmp(r, Ne, v, Imm(0)))
    {
      r := NewValue();
      Insert(IntCmp(r, Ne, v, Imm(0)));
    }

    // ---- Statement temporaries ----

    method TrackTempString(r: Reg)
      requires Valid()
      modifies `mTempStrings
      ensures Valid() && View() == TrackTemp(old(View()), r)
    {
      mTempStrings := mTempStrings + [r];
    }

    /** Erase the first entry that is `r`. */
    method UntrackTempString(r: Reg)
      requires Valid()
      modifies `mTempStrings
      ensures Valid() && View() == UntrackTemp(old(View()), r)
    {
      hide Prefixes, Spares, Touches, Grows, Extends, Follows;
      var i := 0;
      while i < |mTempStrings|
        invariant i <= |mTempStrings| && mTempStrings == old(mTempStrings)
        invariant Without(mTempStrings, r) == mTempStrings[..i] + Without(mTempStrings[i..], r)
      {
        if mTempStrings[i] == r {
          assert mTempStrings[i..][1..] == mTempStrings[i + 1..];
          mTempStrings := mTempStrings[..i] + mTempStrings[i + 1..];
          return;
        }
        assert mTempStrings[i..][1..] == mTempStrings[i + 1..];
        assert mTempStrings[..i + 1] == mTempStrings[..i] + [mTempStrings[i]];
        i := i + 1;
      }
    }

    /** Release what was tracked since `mark`, in order, and forget it. */
    method FlushTempsSince(mark: nat)
      requires Valid() && mark <= |mTempStrings|
      modifies `mBlocks, `mTempStrings
      ensures Valid() && View() == FlushSince(old(View()), mark)
    {
      hide Prefixes, Spares, Touches, Grows, Extends, Follows, Emit, EmitReleases, LoopsOf;
      var i := mark;
      while i < |mTempStrings|
        invariant Valid() && mark <= i <= |mTempStrings| && mTempStrings == old(mTempStrings)
        invariant EmitReleases(View(), mTempStrings[i..]) == EmitReleases(old(View()), mTempStrings[mark..])
      {
        ReleasesStep(View(), mTempStrings, i);
        Insert(StringRelease(mTempStrings[i]));
        i := i + 1;
      }
      assert mTempStrings[i..] == [];
      NoReleases(View());
      mTempStrings := mTempStrings[..mark];
    }

    method ReleaseTempStrings()
      requires Valid()
      modifies `mBlocks, `mTempStrings
      ensures Valid() && View() == ReleaseTemps(old(View()))
    {
      if HasTerminator() {
        mTempStrings := [];
      } else {
        FlushTempsSince(0);
      }
    }

    // ---- Scope releases ----

    /** Release the variables of one scope in declaration order, skipping the moved ones. */
    method ReleaseScope(scope: seq<Var>)
      requires Valid()
      modifies `mBlocks, `mNextValue
      ensures Valid() && View() == ReleaseVars(old(View()), scope) && |mBlocks| == old(|mBlocks|)
    {
      var j := 0;
      while j < |scope|
        invariant Valid() && j <= |scope| && |mBlocks| == old(|mBlocks|)
        invariant ReleaseVars(View(), scope[j..]) == ReleaseVars(old(View()), scope)
      {
        assert scope[j..][1..] == scope[j + 1..];
        if scope[j] !in mMovedVariables {
          var r := NewValue();
          Insert(LoadStr(r, scope[j]));
          Insert(StringRelease(r));
        }
        j := j + 1;
      }
    }

    /** Release every open scope, innermost first. */
    method EmitScopeStackReleases()
      requires Valid()
      modifies `mBlocks, `mNextValue
      ensures Valid() && View() == ReleaseVars(old(View()), ReleaseOrder(mStringScopeStack))
    {
      var i := |mStringScopeStack|;
      assert mStringScopeStack[..i] == mStringScopeStack;
      while i > 0
        invariant Valid() && 0 <= i <= |mStringScopeStack|
        invariant ReleaseVars(View(), ReleaseOrder(mStringScopeStack[..i]))
               == ReleaseVars(old(View()), ReleaseOrder(mStringScopeStack))
      {
        assert mStringScopeStack[..i][..i - 1] == mStringScopeStack[..i - 1];
        ReleaseVarsSplit(View(), mStringScopeStack[i - 1], ReleaseOrder(mStringScopeStack[..i - 1]));
        ReleaseScope(mStringScopeStack[i - 1]);
        i := i - 1;
      }
    }

    // ---- Expressions ----

    method GenInteger(e: IExpr) returns (v: Operand)
      requires Valid()
      modifies `mBlocks, `mNextValue
      ensures Valid() && (View(), v) == GenI(e, old(View()))
      decreases e
    {
      match e
      case IntLit(n) => v := Imm(n);
      case IVar(x) =>
        var r := NewValue();
        Insert(LoadInt(r, x));
        v := Tmp(r);
      case Arith(op, l, r) =>
        var a := GenInteger(l);
        var b := GenInteger(r);
        var d := NewValue();
        Insert(IntArith(d, op, a, b));
        v := Tmp(d);
    }

    /** A call or literal that yields a string the current statement owns. */
    method InsertTemp(i: Instr)
      requires Valid()
      modifies `mBlocks, `mNextValue, `mTempStrings
      ensures Valid() && View() == EmitTemp(old(View()), i).0
    {
      var r := NewValue();
      Insert(i);
      TrackTempString(r);
    }

    method GenString(e: SExpr) returns (r: Option<Reg>)
      requires Valid()
      modifies this
      ensures Stable(old(View()), old(mLoopStack), old(mHasError))
      ensures Emits(r.None?, GenS(mProgram, e, old(View())).0, old(mHasError))
      ensures r == if Rejects(old(View()), MovesS(mProgram, e)) then None else Some(GenS(mProgram, e, old(View())).1)
      decreases e, 1
    {
      match e
      case Lit(t) =>
        r := Some(mNextValue);
        InsertTemp(CreateStatic(mNextValue, t));
      case SVar(x) =>
        var d := NewValue();
        Insert(LoadStr(d, x));
        r := Some(d);
      case Concat(_, _) => r := GenConcat(e);
      case Call(_, _) => r := GenCallExpression(e);
    }

    method GenConcat(e: SExpr) returns (r: Option<Reg>)
      requires Valid() && e.Concat?
      modifies this
      ensures Stable(old(View()), old(mLoopStack), old(mHasError))
      ensures Emits(r.None?, GenS(mProgram, e, old(View())).0, old(mHasError))
      ensures r == if Rejects(old(View()), MovesS(mProgram, e)) then None else Some(GenS(mProgram, e, old(View())).1)
      decreases e, 0
    {
      hide Emit, EmitTemp;
      var left := GenString(e.left);
      var right := GenString(e.right);
      if left.None? || right.None? { return None; }
      r := Some(mNextValue);
      EmitTempReg(View(), ConcatStr(mNextValue, left.value, right.value));
      InsertTemp(ConcatStr(mNextValue, left.value, right.value));
    }

    method GenArguments(es: seq<SExpr>) returns (rs: Option<seq<Reg>>)
      requires Valid()
      modifies this
      ensures Stable(old(View()), old(mLoopStack), old(mHasError))
      ensures Emits(rs.None?, GenArgs(mProgram, es, old(View())).0, old(mHasError))
      ensures rs == if Rejects(old(View()), MovesArgs(mProgram, es)) then None else Some(GenArgs(mProgram, es, old(View())).1)
      decreases es, 1
    {
      hide GenS, MovesS;
      var i, regs := 0, [];
      while i < |es|
        invariant i <= |es| && Stable(old(View()), old(mLoopStack), old(mHasError))
        invariant Emits(false, GenArgs(mProgram, es[..i], old(View())).0, old(mHasError))
        invariant regs == GenArgs(mProgram, es[..i], old(View())).1
        invariant !Rejects(old(View()), MovesArgs(mProgram, es[..i]))
      {
        ArgsFrom(mProgram, es, i, old(View()));
        var r := GenString(es[i]);
        if r.None? { return None; }
        regs := regs + [r.value];
        i := i + 1;
      }
      assert es[..i] == es;
      rs := Some(regs);
    }

    /** Own variables passed to own parameters are moved; inside a loop that is an error. */
    method MarkOwnArguments(args: seq<SExpr>, params: seq<Var>) returns (ok: bool)
      requires Valid()
      modifies `mMovedVariables, `mHasError
      ensures Valid() && ok == !Rejects(old(View()), OwnMoves(args, params))
      ensures !ok <==> mInsideLoop && exists k :: 0 <= k < |args| && k < |params| && PassesOwn(args[k], params[k])
      ensures Emits(!ok, old(View()).(moved := old(mMovedVariables) + OwnMoves(args, params)), old(mHasError))
      ensures old(mHasError) ==> mHasError
    {
      OwnMovesPass(args, params);
      var i := 0;
      while i < |args| && i < |params|
        invariant i <= |args| && i <= |params| && mHasError == old(mHasError)
        invariant mMovedVariables + OwnMoves(args[i..], params[i..]) == old(mMovedVariables) + OwnMoves(args, params)
        invariant mInsideLoop ==> OwnMoves(args, params) == OwnMoves(args[i..], params[i..])
      {
        assert args[i..][1..] == args[i + 1..] && params[i..][1..] == params[i + 1..];
        if params[i].own && args[i].SVar? && args[i].x.own {
          if mInsideLoop {
            mHasError := true;
            return false;
          }
          mMovedVariables := mMovedVariables + {args[i].x};
        }
        i := i + 1;
      }
      ok := true;
    }

    method GenCallExpression(e: SExpr) returns (r: Option<Reg>)
      requires Valid() && e.Call?
      modifies this
      ensures Stable(old(View()), old(mLoopStack), old(mHasError))
      ensures Emits(r.None?, GenS(mProgram, e, old(View())).0, old(mHasError))
      ensures r == if Rejects(old(View()), MovesS(mProgram, e)) then None else Some(GenS(mProgram, e, old(View())).1)
      ensures r.None? <==> old(mInsideLoop) && Passes(mProgram, e)
      decreases e, 0
    {
      hide Emit, EmitTemp, OwnMoves, GenArgs, MovesArgs, Passes;
      MovesPass(mProgram, e);
      var args := GenArguments(e.args);
      if args.None? { return None; }
      var ok := MarkOwnArguments(e.args, ParamsOf(mProgram, e.f));
      if !ok { return None; }
      r := Some(mNextValue);
      EmitTempReg(View(), CallFn(mNextValue, e.f, args.value));
      InsertTemp(CallFn(mNextValue, e.f, args.value));
    }

    // ---- Conditions ----

    method GenCondition(e: BExpr) returns (r: Option<Operand>)
      requires Valid()
      modifies this
      ensures Stable(old(View()), old(mLoopStack), old(mHasError))
      ensures Emits(r.None?, GenB(mProgram, e, old(View())).0, old(mHasError))
      ensures r == if Rejects(old(View()), MovesB(mProgram, e)) then None else Some(GenB(mProgram, e, old(View())).1)
      decreases e, 1
    {
      hide Prefixes, Spares, Touches, Grows, Extends, Follows;
      match e
      case Truthy(i) =>
        var v := GenInteger(i);
        r := Some(v);
      case Cmp(op, x, y) =>
        var v := GenInteger(x);
        var u := GenInteger(y);
        var d := NewValue();
        Insert(IntCmp(d, op, v, u));
        r := Some(Tmp(d));
      case StrCmp(_, _, _) => r := GenStringComparison(e);
      case Logic(_, _, _) => r := GenLogicExpression(e);
    }

    method GenStringComparison(e: BExpr) returns (r: Option<Operand>)
      requires Valid() && e.StrCmp?
      modifies this
      ensures Stable(old(View()), old(mLoopStack), old(mHasError))
      ensures Emits(r.None?, GenB(mProgram, e, old(View())).0, old(mHasError))
      ensures r == if Rejects(old(View()), MovesB(mProgram, e)) then None else Some(GenB(mProgram, e, old(View())).1)
    {
      hide Prefixes, Spares, Touches, Grows, Extends, Follows, GenS, MovesS, FinishStrCmp, LoopsOf;
      var left := GenString(e.sl);
      var right := GenString(e.sr);
      if left.None? || right.None? { return None; }
      var v := CompareStrings(e.equal, left.value, right.value);
      r := Some(v);
    }

    method CompareStrings(equal: bool, a: Reg, b: Reg) returns (v: Operand)
      requires Valid()
      modifies `mBlocks, `mNextValue
      ensures Valid() && (View(), v) == FinishStrCmp(equal, a, b, old(View())) && |mBlocks| == old(|mBlocks|)
    {
      hide Prefixes, Spares, Touches, Grows, Extends, Follows, Emit, Fresh, LoopsOf;
      var d := NewValue();
      Insert(StringEquals(d, a, b));
      if equal { return Tmp(d); }
      var n := NewValue();
      Insert(NotBool(n, Tmp(d)));
      v := Tmp(n);
    }

    /** After the left operand: a block for the right one and a merge block. */
    method OpenRightBlock(lhs: Operand, isAnd: bool) returns (mergeBB: nat)
      requires Valid()
      modifies `mBlocks, `mNextValue, `mInsertBlock
      ensures Valid() && View() == OpenRight(old(View()), lhs, isAnd) && mergeBB == old(|mBlocks|) + 1
    {
      hide Prefixes, Spares, Touches, Grows, Extends, Follows, AddBlocks, Fresh;
      var lBool := CompareWithZero(lhs);
      var rhsBB := CreateBlocks(2);
      mergeBB := rhsBB + 1;
      Insert(if isAnd then CondBr(Tmp(lBool), rhsBB, mergeBB) else CondBr(Tmp(lBool), mergeBB, rhsBB));
      mInsertBlock := rhsBB;
    }

    /** The end of the right operand: its temporaries are confined to its edge. */
    method EndRightBlock(ghost c1: CG, rhs: Operand, mergeBB: nat, mark: nat) returns (rBool: Reg)
      requires Valid() && Ok(c1) && mark == |c1.temps| && c1.temps <= mTempStrings && mergeBB < |mBlocks|
      modifies `mBlocks, `mNextValue, `mTempStrings, `mInsertBlock
      ensures Valid() && rBool == old(mNextValue)
      ensures View() == SetInsertPoint(Emit(RightEnd(c1, old(View()), rhs), Br(mergeBB)), mergeBB)
    {
      hide Prefixes, Spares, Touches, Grows, Extends, Follows, EmitReleases;
      rBool := CompareWithZero(rhs);
      FlushTempsSince(mark);
      Insert(Br(mergeBB));
      mInsertBlock := mergeBB;
    }

    /** After the right operand: join, and select the result by the edge taken. */
    method CloseRightBlock(ghost c1: CG, ghost c2: CG, rhs: Operand, isAnd: bool, entryBB: nat, mergeBB: nat, mark: nat)
      returns (v: Operand)
      requires Valid() && Ok(c1) && Extends(c1, c2) && Extends(c2, View()) && mark == |c1.temps| && entryBB == c1.cur
      requires |c2.blocks| == |c1.blocks| + 2 && c2.cur == |c1.blocks| && c2.blocks[|c1.blocks| + 1] == []
      requires mergeBB == |c1.blocks| + 1 && c1.temps <= mTempStrings && mergeBB < |mBlocks|
      modifies `mBlocks, `mNextValue, `mTempStrings, `mInsertBlock
      ensures Valid() && (View(), v) == CloseRight(c1, c2, old(View()), rhs, isAnd)
    {
      hide Prefixes, Spares, Touches, Grows, Extends, Follows, RightEnd;
      var rhsEndBB := mInsertBlock;
      var rBool := EndRightBlock(c1, rhs, mergeBB, mark);
      assert View() == JoinRight(c1, c2, old(View()), rhs);
      hide JoinRight;
      var phi := NewValue();
      Insert(Phi(phi, if isAnd then 0 else 1, entryBB, Tmp(rBool), rhsEndBB));
      v := Tmp(phi);
    }

    method GenLogicExpression(e: BExpr) returns (r: Option<Operand>)
      requires Valid() && e.Logic?
      modifies this
      ensures Stable(old(View()), old(mLoopStack), old(mHasError))
      ensures Emits(r.None?, GenB(mProgram, e, old(View())).0, old(mHasError))
      ensures r == if Rejects(old(View()), MovesB(mProgram, e)) then None else Some(GenB(mProgram, e, old(View())).1)
      decreases e, 0
    {
      hide OpenRight, CloseRight, GenB, MovesB, Prefixes, Spares, Touches, Grows, Extends, Follows, LoopsOf;
      LogicUnfold(mProgram, e, View());
      var lhs := GenCondition(e.bl);
      if lhs.None? { return None; }
      ghost var c1 := View();
      var entryBB, mark := mInsertBlock, |mTempStrings|;
      var mergeBB := OpenRightBlock(lhs.value, e.isAnd);
      ghost var c2 := View();
      var rhs := GenCondition(e.br);
      if rhs.None? { return None; }
      var v := CloseRightBlock(c1, c2, rhs.value, e.isAnd, entryBB, mergeBB, mark);
      r := Some(v);
    }

    /** A condition to branch on: a plain integer is compared with zero first. */
    method GenBranchCondition(e: BExpr) returns (r: Option<Operand>)
      requires Valid()
      modifies this
      ensures Stable(old(View()), old(mLoopStack), old(mHasError))
      ensures Emits(r.None?, GenCond(mProgram, e, old(View())).0, old(mHasError))
      ensures r == if Rejects(old(View()), MovesB(mProgram, e)) then None else Some(GenCond(mProgram, e, old(View())).1)
    {
      hide GenB, MovesB;
      r := GenCondition(e);
      if r.Some? && e.Truthy? {
        var d := CompareWithZero(r.value);
        r := Some(Tmp(d));
      }
    }

    // ---- Statements that store ----

    /** An own variable initialised or assigned from an own variable moves it. */
    method MarkMoved(x: Var, e: SExpr)
      requires Valid()
      modifies `mMovedVariables, `mHasError
      ensures Valid() && (old(mHasError) ==> mHasError)
      ensures Emits(mInsideLoop && IsMove(x, e), MarkMove(old(View()), x, e), old(mHasError))
    {
      if x.own && e.SVar? && e.x.own {
        if mInsideLoop {
          mHasError := true;
          return;
        }
        mMovedVariables := mMovedVariables + {e.x};
      }
    }

    method GenVariableDeclaration(x: Var, e: SExpr)
      requires Valid() && mStringScopeStack != []
      modifies this
      ensures Stable(old(View()), old(mLoopStack), old(mHasError))
      ensures Emits(RejectsStore(mProgram, x, e, old(View())), GenDecl(mProgram, x, e, old(View())), old(mHasError))
    {
      hide Prefixes, Spares, Touches, Grows, Extends, Follows, GenS, MovesS, Initialised, MarkMove, LoopsOf, GenDecl;
      DeclUnfold(mProgram, x, e, View());
      DeclareVariable(x);
      hide Declare;
      var value := GenString(e);
      if value.None? {
        MarkMoved(x, e);
        return;
      }
      StoreInitialValue(x, e, value.value);
      MarkMoved(x, e);
    }

    method DeclareVariable(x: Var)
      requires Valid() && mStringScopeStack != []
      modifies `mStringScopeStack
      ensures Valid() && View() == Declare(old(View()), x) && |mStringScopeStack| == old(|mStringScopeStack|)
    {
      var top := |mStringScopeStack| - 1;
      mStringScopeStack := mStringScopeStack[top := mStringScopeStack[top] + [x]];
    }

    /** A copy of another variable shares its string; everything else hands its reference over. */
    method StoreInitialValue(x: Var, e: SExpr, value: Reg)
      requires Valid()
      modifies `mBlocks, `mTempStrings
      ensures Valid() && View() == Initialised(old(View()), x, e, value) && |mBlocks| == old(|mBlocks|)
    {
      hide Prefixes, Spares, Touches, Grows, Extends, Follows, Emit, UntrackTemp, LoopsOf;
      if e.SVar? && !(x.own && e.x.own) { Insert(StringRetain(value)); }
      Insert(StoreStr(x, value));
      UntrackTempString(value);
    }

    method GenAssignment(x: Var, e: SExpr)
      requires Valid()
      modifies this
      ensures Stable(old(View()), old(mLoopStack), old(mHasError))
      ensures Emits(RejectsStore(mProgram, x, e, old(View())), GenAssign(mProgram, x, e, old(View())), old(mHasError))
    {
      hide Prefixes, Spares, Touches, Grows, Extends, Follows, GenS, MovesS, Replaced, MarkMove, LoopsOf, GenAssign;
      AssignUnfold(mProgram, x, e, View());
      var rhs := GenString(e);
      if rhs.None? { return; }
      ReplaceValue(x, rhs.value);
      MarkMoved(x, e);
    }

    /** The old string is released before the new one is stored. */
    method ReplaceValue(x: Var, value: Reg)
      requires Valid()
      modifies `mBlocks, `mTempStrings, `mNextValue
      ensures Valid() && View() == Replaced(old(View()), x, value) && |mBlocks| == old(|mBlocks|)
    {
      hide Prefixes, Spares, Touches, Grows, Extends, Follows, Emit, UntrackTemp, LoopsOf;
      var prior := NewValue();
      Insert(LoadStr(prior, x));
      Insert(StringRelease(prior));
      UntrackTempString(value);
      Insert(StoreStr(x, value));
    }

    method GenReturnStatement(e: SExpr)
      requires Valid()
      modifies this
      ensures Stable(old(View()), old(mLoopStack), old(mHasError))
      ensures Emits(Rejects(old(View()), MovesS(mProgram, e)), GenReturn(mProgram, e, old(View())), old(mHasError))
    {
      hide Prefixes, Spares, Touches, Grows, Extends, Follows, GenS, MovesS, Left, Emit, LoopsOf, GenReturn;
      ReturnUnfold(mProgram, e, View());
      var value := GenString(e);
      if value.None? {
        LeaveFunction(RetNull);
        return;
      }
      Insert(StringRetain(value.value));
      LeaveFunction(Machine.Ret(value.value));
    }

    /** Flush the temporaries and release every open scope, then end the function. */
    method LeaveFunction(ret: Instr)
      requires Valid()
      modifies `mBlocks, `mTempStrings, `mNextValue
      ensures Valid() && View() == Left(old(View()), ret) && |mBlocks| >= old(|mBlocks|)
    {
      hide Prefixes, Spares, Touches, Grows, Extends, Follows, ReleaseVars, ReleaseOrder, Emit, LoopsOf, ReleaseTemps;
      LeftGrows(View(), ret);
      ReleaseTempStrings();
      EmitScopeStackReleases();
      Insert(ret);
    }

    method GenIntegerStore(x: Var, e: IExpr)
      requires Valid()
      modifies this
      ensures Stable(old(View()), old(mLoopStack), old(mHasError))
      ensures Emits(false, GenStoreInt(x, e, old(View())), old(mHasError))
    {
      hide GenI;
      var v := GenInteger(e);
      Insert(StoreInt(x, v));
    }

    method GenBreakStatement()
      requires Valid()
      modifies `mBlocks
      ensures Stable(old(View()), mLoopStack, mHasError) && View() == GenBreak(old(View()))
    {
      if mLoopStack == [] { return; }
      Insert(Br(mLoopStack[|mLoopStack| - 1].1));
    }

    method GenContinueStatement()
      requires Valid()
      modifies `mBlocks
      ensures Stable(old(View()), mLoopStack, mHasError) && View() == GenContinue(old(View()))
    {
      if mLoopStack == [] { return; }
      Insert(Br(mLoopStack[|mLoopStack| - 1].0));
    }

    // ---- Branching statements ----

    /** Fall through to block `b` unless the current block already ended. */
    method Join(b: nat)
      requires Valid()
      modifies `mBlocks
      ensures Valid() && View() == JoinTo(old(View()), b) && |mBlocks| == old(|mBlocks|)
    {
      if !HasTerminator() { Insert(Br(b)); }
    }

    /** Flush the condition's temporaries, create then, else and merge, and branch. */
    method BranchOnIf(v: Operand) returns (thenBB: nat)
      requires Valid()
      modifies `mBlocks, `mTempStrings, `mInsertBlock
      ensures Valid() && thenBB == old(|mBlocks|) && |mBlocks| == thenBB + 3 && View() == SplitIf(old(View()), v)
    {
      hide Prefixes, Spares, Touches, Grows, Extends, Follows, ReleaseTemps, AddBlocks;
      ReleaseTempStrings();
      thenBB := CreateBlocks(3);
      Insert(CondBr(v, thenBB, thenBB + 1));
      mInsertBlock := thenBB;
    }

    /** A block that goes on at `next` if its end is reached. */
    method GenBranch(ss: seq<Stmt>, next: nat)
      requires Valid()
      modifies this
      ensures Stable(old(View()), old(mLoopStack), old(mHasError))
      ensures Emits(RejectsBlock(mProgram, ss, old(View())), JoinTo(GenBlock(mProgram, ss, old(View())), next), old(mHasError))
      decreases ss, 2
    {
      hide GenBlock, RejectsBlock, JoinTo, Prefixes, Spares, Touches, Grows, Extends, Follows, LoopsOf, Terminated;
      GenBlockStatement(ss);
      Join(next);
    }

    /** The else branch, from the moved set of before, and the merge. */
    method GenElse(ss: seq<Stmt>, savedMoved: set<Var>, thenBB: nat)
      requires Valid() && thenBB + 2 < |mBlocks|
      modifies this
      ensures Stable(old(View()), old(mLoopStack), old(mHasError))
      ensures
        var c4 := old(View()).(cur := thenBB + 1, moved := savedMoved);
        var c5 := JoinTo(GenBlock(mProgram, ss, c4), thenBB + 2);
        Emits(RejectsBlock(mProgram, ss, c4), c5.(cur := thenBB + 2, moved := c5.moved + old(mMovedVariables)),
              old(mHasError))
      decreases ss, 3
    {
      hide GenBlock, RejectsBlock, JoinTo, Prefixes, Spares, Touches, Grows, Extends, Follows, LoopsOf, Terminated;
      var thenMoved := mMovedVariables;
      mMovedVariables := savedMoved;
      mInsertBlock := thenBB + 1;
      GenBranch(ss, thenBB + 2);
      mMovedVariables := mMovedVariables + thenMoved;
      mInsertBlock := thenBB + 2;
    }

    /** The moved set of before is restored for the else branch; moves of both branches count. */
    method GenIfStatement(s: Stmt)
      requires Valid() && s.If? && mStringScopeStack != []
      modifies this
      ensures Stable(old(View()), old(mLoopStack), old(mHasError))
      ensures Emits(RejectsStmt(mProgram, s, old(View())), GenStmt(mProgram, s, old(View())), old(mHasError))
      decreases s, 0
    {
      hide GenCond, GenBlock, MovesB, RejectsBlock, SplitIf, JoinTo, Prefixes, Spares, Touches, Grows, Extends, Follows,
        ThenStart, ThenEnd, ElseStart, ElseEnd, GenIf, GenStmt, RejectsStmt, LoopsOf, Terminated;
      IfUnfold(mProgram, s, View());
      var cond := GenBranchCondition(s.cond);
      if cond.None? { return; }
      var thenBB := BranchOnIf(cond.value);
      var savedMoved := mMovedVariables;
      GenBranch(s.thn, thenBB + 2);
      GenElse(s.els, savedMoved, thenBB);
    }

    /** A scope of its own, released on fall-through, and popped. */
    method GenBlockStatement(ss: seq<Stmt>)
      requires Valid()
      modifies this
      ensures Stable(old(View()), old(mLoopStack), old(mHasError))
      ensures Emits(RejectsBlock(mProgram, ss, old(View())), GenBlock(mProgram, ss, old(View())), old(mHasError))
      ensures old(mTempStrings) == [] ==> mTempStrings == []
      decreases ss, 1
    {
      hide GenStmts, RejectsStmts, ReleaseVars, Prefixes, Spares, Touches, Grows, Extends, Follows, Terminated;
      mStringScopeStack := mStringScopeStack + [[]];
      assert View() == PushScope(old(View()));
      GenStatements(ss);
      if !HasTerminator() { ReleaseScope(mStringScopeStack[|mStringScopeStack| - 1]); }
      mStringScopeStack := mStringScopeStack[..|mStringScopeStack| - 1];
    }

    /** Statements up to the first one that ends the block, temporaries flushed after each. */
    method GenStatements(ss: seq<Stmt>)
      requires Valid() && mStringScopeStack != []
      modifies this
      ensures Stable(old(View()), old(mLoopStack), old(mHasError))
      ensures Emits(RejectsStmts(mProgram, ss, old(View())), GenStmts(mProgram, ss, old(View())), old(mHasError))
      ensures old(mTempStrings) == [] ==> mTempStrings == []
      decreases ss, 0
    {
      hide GenStmt, RejectsStmt, ReleaseTemps, Prefixes, Spares, Touches, Grows, Extends, Follows, Terminated;
      ghost var bad := false;
      var i := 0;
      while i < |ss|
        invariant i <= |ss| && Stable(old(View()), old(mLoopStack), old(mHasError))
        invariant old(mTempStrings) == [] ==> mTempStrings == []
        invariant Remains(ss, i, old(View()), bad, old(mHasError))
      {
        if HasTerminator() { break; }
        assert ss[i..][1..] == ss[i + 1..];
        bad := bad || RejectsStmt(mProgram, ss[i], View());
        GenStatement(ss[i]);
        ReleaseTempStrings();
        i := i + 1;
      }
    }

    /** Statements i.. are still to be generated, unless one before was rejected. */
    predicate Remains(ss: seq<Stmt>, i: nat, c0: CG, bad: bool, hadError: bool)
      requires i <= |ss| && Valid() && mStringScopeStack != [] && Ok(c0) && c0.scopes != []
      reads this
    {
      if bad then mHasError && RejectsStmts(mProgram, ss, c0)
      else
        && mHasError == hadError
        && GenStmts(mProgram, ss[i..], View()) == GenStmts(mProgram, ss, c0)
        && RejectsStmts(mProgram, ss[i..], View()) == RejectsStmts(mProgram, ss, c0)
    }

    method GenStatement(s: Stmt)
      requires Valid() && mStringScopeStack != []
      modifies this
      ensures Stable(old(View()), old(mLoopStack), old(mHasError))
      ensures old(HasTerminator()) ==> View() == old(View()) && mHasError == old(mHasError)
      ensures !old(HasTerminator()) ==>
        Emits(RejectsStmt(mProgram, s, old(View())), GenStmt(mProgram, s, old(View())), old(mHasError))
      decreases s, 2
    {
      if HasTerminator() { return; }
      match s
      case DeclStr(x, e) => GenVariableDeclaration(x, e);
      case AssignStr(x, e) => GenAssignment(x, e);
      case DeclEmpty(x) => DeclareVariable(x);
      case DeclInt(x, e) => GenIntegerStore(x, e);
      case AssignInt(x, e) => GenIntegerStore(x, e);
      case Eval(e) => var _ := GenString(e);
      case Return(e) => GenReturnStatement(e);
      case Break => GenBreakStatement();
      case Continue => GenContinueStatement();
      case Block(body) => GenBlockStatement(body);
      case If(_, _, _) => GenIfStatement(s);
      case While(_, _) => GenWhileStatement(s);
      case ForRange(_, _, _, _) => GenForRangeStatement(s);
      case Forever(_) => GenForeverStatement(s);
    }

    // ---- Loops ----

    /** Push the targets of continue and break. */
    method EnterLoop(continueBB: nat, breakBB: nat) returns (savedInsideLoop: bool)
      requires Valid()
      modifies `mLoopStack, `mInsideLoop
      ensures Valid() && savedInsideLoop == old(mInsideLoop) && mLoopStack == old(mLoopStack) + [(continueBB, breakBB)]
      ensures View() == PushLoop(old(View()), continueBB, breakBB)
    {
      LoopsPush(mLoopStack, continueBB, breakBB);
      mLoopStack := mLoopStack + [(continueBB, breakBB)];
      savedInsideLoop := mInsideLoop;
      mInsideLoop := true;
    }

    /** Pop the targets and continue in the exit block. */
    method ExitLoop(savedInsideLoop: bool, exitBB: nat)
      requires Valid() && mLoopStack != [] && exitBB < |mBlocks| && (savedInsideLoop <==> |mLoopStack| > 1)
      modifies `mLoopStack, `mInsideLoop, `mInsertBlock
      ensures Valid() && View() == LeaveLoop(old(View()), exitBB) && unchanged(`mBlocks) && unchanged(`mStringScopeStack)
      ensures mLoopStack == old(mLoopStack[..|mLoopStack| - 1])
    {
      mInsideLoop := savedInsideLoop;
      mLoopStack := mLoopStack[..|mLoopStack| - 1];
      mInsertBlock := exitBB;
    }

    method OpenWhileBlocks() returns (condBB: nat)
      requires Valid()
      modifies `mBlocks, `mInsertBlock
      ensures Valid() && condBB == old(|mBlocks|) && |mBlocks| == condBB + 3 && View() == OpenWhile(old(View()))
    {
      hide Prefixes, Spares, Touches, Grows, Extends, Follows, AddBlocks;
      condBB := CreateBlocks(3);
      Insert(Br(condBB));
      mInsertBlock := condBB;
    }

    /** Flush the condition's temporaries and branch to body or exit. */
    method BranchOnWhile(v: Operand, condBB: nat)
      requires Valid() && condBB + 2 < |mBlocks|
      modifies `mBlocks, `mTempStrings
      ensures Valid() && |mBlocks| == old(|mBlocks|)
      ensures View() == Emit(ReleaseTemps(old(View())), CondBr(v, condBB + 1, condBB + 2))
    {
      hide Prefixes, Spares, Touches, Grows, Extends, Follows, ReleaseTemps;
      ReleaseTempStrings();
      Insert(CondBr(v, condBB + 1, condBB + 2));
    }

    /** The condition block of a while loop. */
    method GenWhileCondition(e: BExpr) returns (condBB: nat)
      requires Valid()
      modifies this
      ensures Stable(old(View()), old(mLoopStack), old(mHasError)) && condBB == old(|mBlocks|) && condBB + 2 < |mBlocks|
      ensures
        var (c2, v) := GenCond(mProgram, e, OpenWhile(old(View())));
        Emits(Rejects(old(View()), MovesB(mProgram, e)), Emit(ReleaseTemps(c2), CondBr(v, condBB + 1, condBB + 2)),
              old(mHasError))
    {
      hide GenCond, MovesB, Prefixes, Spares, Touches, Grows, Extends, Follows, OpenWhile, Emit, ReleaseTemps;
      condBB := OpenWhileBlocks();
      var cond := GenBranchCondition(e);
      if cond.Some? { BranchOnWhile(cond.value, condBB); }
    }

    /** The body of a loop, with its targets pushed; it goes on at the target of continue. */
    method GenLoopBody(ss: seq<Stmt>, continueBB: nat, breakBB: nat, bodyBB: nat) returns (savedInsideLoop: bool)
      requires Valid() && bodyBB < |mBlocks|
      modifies this
      ensures Stable(old(View()), old(mLoopStack) + [(continueBB, breakBB)], old(mHasError))
      ensures savedInsideLoop == old(mInsideLoop)
      ensures
        var start := PushLoop(old(View()), continueBB, breakBB).(cur := bodyBB);
        Emits(RejectsBlock(mProgram, ss, start), JoinTo(GenBlock(mProgram, ss, start), continueBB), old(mHasError))
      decreases ss, 3
    {
      hide GenBlock, RejectsBlock, JoinTo, Prefixes, Spares, Touches, Grows, Extends, Follows, LoopsOf, Terminated;
      savedInsideLoop := EnterLoop(continueBB, breakBB);
      mInsertBlock := bodyBB;
      GenBranch(ss, continueBB);
    }

    /** A loop body between pushing the targets and popping them. */
    method GenLoop(ss: seq<Stmt>, continueBB: nat, breakBB: nat, bodyBB: nat)
      requires Valid() && bodyBB < |mBlocks| && breakBB < |mBlocks|
      modifies this
      ensures Stable(old(View()), old(mLoopStack), old(mHasError))
      ensures
        var start := PushLoop(old(View()), continueBB, breakBB).(cur := bodyBB);
        Emits(RejectsBlock(mProgram, ss, start), LeaveLoop(JoinTo(GenBlock(mProgram, ss, start), continueBB), breakBB),
              old(mHasError))
      decreases ss, 4
    {
      hide GenBlock, RejectsBlock, JoinTo, Prefixes, Spares, Touches, Grows, Extends, Follows, LoopsOf, Terminated;
      var savedInsideLoop := GenLoopBody(ss, continueBB, breakBB, bodyBB);
      assert mLoopStack[..|mLoopStack| - 1] == old(mLoopStack);
      ExitLoop(savedInsideLoop, breakBB);
    }

    method GenWhileStatement(s: Stmt)
      requires Valid() && s.While? && mStringScopeStack != []
      modifies this
      ensures Stable(old(View()), old(mLoopStack), old(mHasError))
      ensures Emits(RejectsStmt(mProgram, s, old(View())), GenStmt(mProgram, s, old(View())), old(mHasError))
      decreases s, 0
    {
      hide GenCond, GenBlock, MovesB, RejectsBlock, JoinTo, Prefixes, Spares, Touches, Grows, Extends, Follows, OpenWhile,
        GenStmt, RejectsStmt, Emit, ReleaseTemps, WhileStart, LoopsOf, Terminated;
      WhileUnfold(mProgram, s, View());
      var condBB := GenWhileCondition(s.cond);
      GenLoop(s.body, condBB, condBB + 2, condBB + 1);
    }

    method GenForeverStatement(s: Stmt)
      requires Valid() && s.Forever? && mStringScopeStack != []
      modifies this
      ensures Stable(old(View()), old(mLoopStack), old(mHasError))
      ensures Emits(RejectsStmt(mProgram, s, old(View())), GenStmt(mProgram, s, old(View())), old(mHasError))
      decreases s, 0
    {
      hide GenBlock, RejectsBlock, JoinTo, Prefixes, Spares, Touches, Grows, Extends, Follows, GenStmt, RejectsStmt,
        AddBlocks, Emit, LoopsOf, Terminated;
      ForeverUnfold(mProgram, s, View());
      var bodyBB := CreateBlocks(2);
      Insert(Br(bodyBB));
      GenLoop(s.body, bodyBB, bodyBB + 1, bodyBB);
    }

    /** Bounds, counter and test of a range loop. */
    method OpenRangeBlocks(x: Var, lo: IExpr, hi: IExpr) returns (condBB: nat)
      requires Valid()
      modifies `mBlocks, `mNextValue, `mInsertBlock
      ensures Valid() && condBB == old(|mBlocks|) && |mBlocks| == condBB + 4
      ensures
        var (c2, v, w) := Bounds(lo, hi, old(View()));
        View() == RangeTest(RangeInit(c2, x, v), x, w, condBB)
    {
      hide Prefixes, Spares, Touches, Grows, Extends, Follows, GenI, LoopsOf, RangeInit, RangeTest;
      var v := GenInteger(lo);
      var w := GenInteger(hi);
      condBB := OpenCounter(x, v);
      TestCounter(x, w, condBB);
    }

    method TestCounter(x: Var, w: Operand, condBB: nat)
      requires Valid()
      modifies `mBlocks, `mNextValue
      ensures Valid() && |mBlocks| == old(|mBlocks|) && View() == RangeTest(old(View()), x, w, condBB)
    {
      hide Prefixes, Spares, Touches, Grows, Extends, Follows, Emit, LoopsOf;
      var cur := NewValue();
      Insert(LoadInt(cur, x));
      var cmp := NewValue();
      Insert(IntCmp(cmp, Lt, Tmp(cur), w));
      Insert(CondBr(Tmp(cmp), condBB + 1, condBB + 3));
    }

    method OpenCounter(x: Var, v: Operand) returns (condBB: nat)
      requires Valid()
      modifies `mBlocks, `mInsertBlock
      ensures Valid() && condBB == old(|mBlocks|) && |mBlocks| == condBB + 4 && View() == RangeInit(old(View()), x, v)
    {
      hide Prefixes, Spares, Touches, Grows, Extends, Follows, AddBlocks;
      Insert(StoreInt(x, v));
      condBB := CreateBlocks(4);
      Insert(Br(condBB));
      mInsertBlock := condBB;
    }

    method GenForRangeStatement(s: Stmt)
      requires Valid() && s.ForRange? && mStringScopeStack != []
      modifies this
      ensures Stable(old(View()), old(mLoopStack), old(mHasError))
      ensures Emits(RejectsStmt(mProgram, s, old(View())), GenStmt(mProgram, s, old(View())), old(mHasError))
      decreases s, 0
    {
      hide GenBlock, RejectsBlock, JoinTo, Prefixes, Spares, Touches, Grows, Extends, Follows, GenStmt, RejectsStmt,
        RangeStart, Bounds, RangeInit, RangeTest, LeaveLoop, CountUp, LoopsOf;
      RangeUnfold(mProgram, s, View());
      var condBB := OpenRangeBlocks(s.ix, s.lo, s.hi);
      var savedInsideLoop := GenLoopBody(s.body, condBB + 2, condBB + 3, condBB + 1);
      assert mLoopStack[..|mLoopStack| - 1] == old(mLoopStack);
      mInsertBlock := condBB + 2;
      Repeat(s.ix, condBB);
      ExitLoop(savedInsideLoop, condBB + 3);
    }

    method Repeat(x: Var, condBB: nat)
      requires Valid()
      modifies `mBlocks, `mNextValue
      ensures Valid() && |mBlocks| == old(|mBlocks|) && View() == CountUp(old(View()), x, condBB)
    {
      hide Prefixes, Spares, Touches, Grows, Extends, Follows, Emit, Fresh;
      Increment(x);
      Insert(Br(condBB));
    }

    method Increment(x: Var)
      requires Valid()
      modifies `mBlocks, `mNextValue
      ensures Valid() && |mBlocks| == old(|mBlocks|)
      ensures
        var c1 := old(View());
        var c2 := Emit(Fresh(c1), LoadInt(c1.next, x));
        var c3 := Emit(Fresh(c2), IntArith(c2.next, Add, Tmp(c1.next), Imm(1)));
        View() == Emit(c3, StoreInt(x, Tmp(c2.next)))
    {
      hide Prefixes, Spares, Touches, Grows, Extends, Follows;
      var i := NewValue();
      Insert(LoadInt(i, x));
      var inc := NewValue();
      Insert(IntArith(inc, Add, Tmp(i), Imm(1)));
      Insert(StoreInt(x, Tmp(inc)));
    }

    // ---- Functions ----

    method StoreParameters(xs: seq<Var>)
      requires Valid()
      modifies `mBlocks
      ensures Valid() && View() == StoreArgs(old(View()), xs, 0)
    {
      var k := 0;
      while k < |xs|
        invariant Valid() && k <= |xs|
        invariant StoreArgs(View(), xs[k..], k) == StoreArgs(old(View()), xs, 0)
      {
        assert xs[k..][1..] == xs[k + 1..];
        Insert(StoreArg(xs[k], k));
        k := k + 1;
      }
    }

    /** A function-level scope of the own parameters, which a return releases. */
    method TrackOwnParameters(xs: seq<Var>)
      requires Valid()
      modifies `mStringScopeStack
      ensures Valid() && mStringScopeStack == old(mStringScopeStack) + [OwnParams(xs)]
    {
      var scope, k := [], 0;
      while k < |xs|
        invariant k <= |xs| && scope + OwnParams(xs[k..]) == OwnParams(xs)
      {
        assert xs[k..][1..] == xs[k + 1..];
        if xs[k].own { scope := scope + [xs[k]]; }
        k := k + 1;
      }
      assert xs[k..] == [] && scope + [] == scope;
      mStringScopeStack := mStringScopeStack + [scope];
    }

    /** Between functions nothing is pending. */
    predicate Idle()
      reads this
    {
      Valid() && mStringScopeStack == [] && mTempStrings == [] && mMovedVariables == {} && mLoopStack == []
    }

    method OpenFunction(f: Fun)
      requires Idle()
      modifies this
      ensures Valid() && View() == Prologue(f) && mLoopStack == [] && mTempStrings == [] && mHasError == old(mHasError)
    {
      hide StoreArgs, Prefixes, Spares, Touches, Grows, Extends, Follows;
      mBlocks, mInsertBlock, mNextValue := [[]], 0, 0;
      assert View() == EMPTY.(scopes := []);
      StoreParameters(f.params);
      StoreArgsScopes(EMPTY.(scopes := []), EMPTY, f.params, 0);
      TrackOwnParameters(f.params);
    }

    method GenFunctionCode(f: Fun) returns (code: Blocks)
      requires Idle()
      modifies this
      ensures Idle() && mHasError == (old(mHasError) || RejectsFun(mProgram, f))
      ensures !RejectsFun(mProgram, f) ==> code == GenFunction(mProgram, f).blocks
    {
      hide GenBlock, RejectsBlock, Prologue, Prefixes, Spares, Touches, Grows, Extends, Follows, Terminated;
      OpenFunction(f);
      GenBlockStatement(f.body);
      if !HasTerminator() { Insert(RetNull); }
      code := mBlocks;
      mStringScopeStack := mStringScopeStack[..|mStringScopeStack| - 1];
      mMovedVariables := {};
    }

    /** The whole program: rejected exactly when some function moves an own variable inside a loop. */
    method GenProgram() returns (code: Code)
      requires Idle() && !mHasError
      modifies this
      ensures mHasError <==> exists k :: 0 <= k < |mProgram| && SomeMovesInLoop(mProgram, mProgram[k].body, false)
      ensures !mHasError ==> code == Compile(mProgram)
      ensures !mHasError ==> forall k :: 0 <= k < |mProgram| ==> BlockTurnsAlike(mProgram, mProgram[k].body, Prologue(mProgram[k]))
      ensures LegalProgram(mProgram, false) || LegalProgram(mProgram, true) ==> !mHasError
    {
      hide RejectsFun, GenFunction, LegalFun, SomeMovesInLoop, BlockTurnsAlike, Prologue;
      NoneRejected(mProgram);
      ProgramIsText(mProgram);
      code := [];
      while |code| < |mProgram|
        invariant Idle() && |code| <= |mProgram|
        invariant mHasError <==> exists k :: 0 <= k < |code| && RejectsFun(mProgram, mProgram[k])
        invariant !mHasError ==> forall k :: 0 <= k < |code| ==> code[k] == GenFunction(mProgram, mProgram[k]).blocks
      {
        var blocks := GenFunctionCode(mProgram[|code|]);
        code := code + [blocks];
      }
    }
  }
}
