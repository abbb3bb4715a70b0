/**
 Temporaries of expressions and conditions in emitted code. Every string an expression creates
 is either still pending or released exactly once; in every function of every program, those
 created on the right of `&&` or `||` are released once, at the end of the right-hand side.
 What a run visits and finds alive is the subject of module ConditionRuns.
 */
module TempConfinement {
  import opened Source
  import opened Machine
  import opened Lowering

  // ---- Counting in emitted code ----

  /** The instruction leaves a new reference in register `t`. */
  predicate Makes(i: Instr, t: Reg) {
    (i.CreateStatic? || i.ConcatStr? || i.CallFn?) && i.dst == t
  }

  function MadeIn(code: seq<Instr>, t: Reg): nat {
    if code == [] then 0 else MadeIn(code[..|code| - 1], t) + (if Makes(code[|code| - 1], t) then 1 else 0)
  }

  function Made(bs: Blocks, t: Reg): nat {
    if bs == [] then 0 else MadeIn(bs[0], t) + Made(bs[1..], t)
  }

  function ReleasedIn(code: seq<Instr>, t: Reg): nat {
    if code == [] then 0
    else ReleasedIn(code[..|code| - 1], t) + (if code[|code| - 1] == StringRelease(t) then 1 else 0)
  }

  function Released(bs: Blocks, t: Reg): nat {
    if bs == [] then 0 else ReleasedIn(bs[0], t) + Released(bs[1..], t)
  }

  function Pending(cg: CG, t: Reg): nat {
    multiset(cg.temps)[t]
  }

  /** Whatever was created in `t` is pending or was released, and only taken registers hold anything. */
  predicate Settled(cg: CG, t: Reg) {
    && Released(cg.blocks, t) + Pending(cg, t) == Made(cg.blocks, t)
    && Made(cg.blocks, t) <= (if t < cg.next then 1 else 0)
  }

  lemma {:induction false} Appended(bs: Blocks, k: nat, i: Instr, t: Reg)
    requires k < |bs|
    ensures Made(bs[k := bs[k] + [i]], t) == Made(bs, t) + (if Makes(i, t) then 1 else 0)
    ensures Released(bs[k := bs[k] + [i]], t) == Released(bs, t) + (if i == StringRelease(t) then 1 else 0)
    decreases |bs|
  {
    var more := bs[k] + [i];
    var after := bs[k := more];
    assert more[..|more| - 1] == bs[k];
    if k == 0 {
      assert after[1..] == bs[1..];
    } else {
      assert after[1..] == bs[1..][k - 1 := bs[1..][k - 1] + [i]];
      Appended(bs[1..], k - 1, i, t);
    }
  }

  lemma {:induction false} EmptyBlocks(bs: Blocks, es: Blocks, t: Reg)
    requires forall k :: 0 <= k < |es| ==> es[k] == []
    ensures Made(bs + es, t) == Made(bs, t) && Released(bs + es, t) == Released(bs, t)
    decreases |bs|, |es|
  {
    if bs != [] {
      assert (bs + es)[1..] == bs[1..] + es;
      EmptyBlocks(bs[1..], es, t);
    } else if es != [] {
      assert (bs + es)[1..] == [] + es[1..];
      EmptyBlocks([], es[1..], t);
    }
  }

  // ---- The law, one emission at a time ----

  lemma EmitSettled(cg: CG, i: Instr, t: Reg)
    requires Ok(cg) && Settled(cg, t) && !Makes(i, t) && i != StringRelease(t)
    ensures Settled(Emit(cg, i), t)
  {
    Appended(cg.blocks, cg.cur, i, t);
  }

  lemma EmitFreshSettled(cg: CG, i: Instr, t: Reg)
    requires Ok(cg) && Settled(cg, t) && !Makes(i, t) && i != StringRelease(t)
    ensures Settled(Emit(Fresh(cg), i), t)
  {
    EmitSettled(Fresh(cg), i, t);
  }

  lemma EmitTempSettled(cg: CG, i: Instr, t: Reg)
    requires Ok(cg) && Settled(cg, t) && (i.CreateStatic? || i.ConcatStr? || i.CallFn?) && i.dst == cg.next
    ensures Settled(EmitTemp(cg, i).0, t)
  {
    Appended(cg.blocks, cg.cur, i, t);
    assert Makes(i, t) <==> t == cg.next;
  }

  lemma {:induction false} ReleasesSettle(cg: CG, kept: seq<Reg>, rs: seq<Reg>, t: Reg)
    requires Ok(cg) && Settled(cg.(temps := kept + rs), t)
    ensures Settled(EmitReleases(cg, rs).(temps := kept), t)
    decreases rs
  {
    if rs == [] {
      assert kept + rs == kept;
    } else {
      var c1 := Emit(cg, StringRelease(rs[0]));
      Appended(cg.blocks, cg.cur, StringRelease(rs[0]), t);
      assert multiset(kept + rs) == multiset(kept + rs[1..]) + multiset{rs[0]} by { assert rs == [rs[0]] + rs[1..]; }
      ReleasesSettle(c1, kept, rs[1..], t);
    }
  }

  lemma FlushSettled(cg: CG, mark: nat, t: Reg)
    requires Ok(cg) && mark <= |cg.temps| && Settled(cg, t)
    ensures Settled(FlushSince(cg, mark), t)
  {
    assert cg.temps[..mark] + cg.temps[mark..] == cg.temps;
    ReleasesSettle(cg, cg.temps[..mark], cg.temps[mark..], t);
  }

  lemma AddBlocksSettled(cg: CG, k: nat, t: Reg)
    requires Ok(cg) && Settled(cg, t)
    ensures Settled(AddBlocks(cg, k), t)
  {
    EmptyBlocks(cg.blocks, seq(k, _ => []), t);
  }

  lemma SetInsertPointSettled(cg: CG, b: nat, t: Reg)
    requires Ok(cg) && b < |cg.blocks| && Settled(cg, t)
    ensures Settled(SetInsertPoint(cg, b), t)
  {
  }

  lemma OpenRightSettled(c1: CG, v: Operand, isAnd: bool, t: Reg)
    requires Ok(c1) && Settled(c1, t)
    ensures Settled(OpenRight(c1, v, isAnd), t)
  {
    hide Settled, Emit, AddBlocks, Prefixes, Spares, OpenRight;
    var rhs := |c1.blocks|;
    var test := IntCmp(c1.next, Ne, v, Imm(0));
    var c := AddBlocks(Emit(Fresh(c1), test), 2);
    var br := if isAnd then CondBr(Tmp(c1.next), rhs, rhs + 1) else CondBr(Tmp(c1.next), rhs + 1, rhs);
    EmitFreshSettled(c1, test, t);
    OpenRightIs(c1, v, isAnd);
    AddBlocksSettled(Emit(Fresh(c1), test), 2, t);
    EmitSettled(c, br, t);
    SetInsertPointSettled(Emit(c, br), rhs, t);
  }

  lemma OpenRightIs(c1: CG, v: Operand, isAnd: bool)
    requires Ok(c1)
    ensures
      var rhs := |c1.blocks|;
      var c := AddBlocks(Emit(Fresh(c1), IntCmp(c1.next, Ne, v, Imm(0))), 2);
      var br := if isAnd then CondBr(Tmp(c1.next), rhs, rhs + 1) else CondBr(Tmp(c1.next), rhs + 1, rhs);
      Ok(c) && rhs < |Emit(c, br).blocks| && OpenRight(c1, v, isAnd) == SetInsertPoint(Emit(c, br), rhs)
  {
  }

  lemma CloseRightSettled(c1: CG, c2: CG, c3: CG, w: Operand, isAnd: bool, t: Reg)
    requires Ok(c1) && Extends(c1, c2) && Extends(c2, c3)
    requires |c2.blocks| == |c1.blocks| + 2 && c2.cur == |c1.blocks| && c2.blocks[|c1.blocks| + 1] == []
    requires Settled(c3, t)
    ensures Settled(CloseRight(c1, c2, c3, w, isAnd).0, t)
  {
    hide Settled, Emit, FlushSince, Prefixes, Spares, JoinRight;
    CloseRightIs(c1, c2, c3, w);
    var merge := |c1.blocks| + 1;
    var test := IntCmp(c3.next, Ne, w, Imm(0));
    var c4 := Emit(Fresh(c3), test);
    EmitFreshSettled(c3, test, t);
    FlushSettled(c4, |c1.temps|, t);
    var c5 := FlushSince(c4, |c1.temps|);
    EmitSettled(c5, Br(merge), t);
    SetInsertPointSettled(Emit(c5, Br(merge)), merge, t);
    var c6 := JoinRight(c1, c2, c3, w);
    EmitFreshSettled(c6, Phi(c6.next, if isAnd then 0 else 1, c1.cur, Tmp(c3.next), c3.cur), t);
  }

  lemma CloseRightIs(c1: CG, c2: CG, c3: CG, w: Operand)
    requires Ok(c1) && Extends(c1, c2) && Extends(c2, c3)
    requires |c2.blocks| == |c1.blocks| + 2 && c2.cur == |c1.blocks| && c2.blocks[|c1.blocks| + 1] == []
    ensures
      var merge := |c1.blocks| + 1;
      var c5 := FlushSince(Emit(Fresh(c3), IntCmp(c3.next, Ne, w, Imm(0))), |c1.temps|);
      && c1.temps <= c3.temps && merge < |c3.blocks| == |c5.blocks|
      && JoinRight(c1, c2, c3, w) == SetInsertPoint(Emit(c5, Br(merge)), merge)
      && c3.blocks[merge] == [] && c3.cur != merge
  {
    hide FlushSince;
  }

  // ---- ... and for whole expressions and conditions ----

  lemma {:induction false} SettledI(e: IExpr, cg: CG, t: Reg)
    requires Ok(cg) && Settled(cg, t)
    ensures Settled(GenI(e, cg).0, t)
    decreases e
  {
    hide Settled, Emit;
    match e
    case IntLit(_) =>
    case IVar(x) => EmitFreshSettled(cg, LoadInt(cg.next, x), t);
    case Arith(op, l, r) =>
      var (c1, i) := GenI(l, cg);
      var (c2, j) := GenI(r, c1);
      SettledI(l, cg, t);
      SettledI(r, c1, t);
      EmitFreshSettled(c2, IntArith(c2.next, op, i, j), t);
  }

  lemma {:induction false} SettledS(p: Program, e: SExpr, cg: CG, t: Reg)
    requires Ok(cg) && Settled(cg, t)
    ensures Settled(GenS(p, e, cg).0, t)
    decreases e
  {
    hide Settled, Emit, EmitTemp;
    match e
    case Lit(s) => EmitTempSettled(cg, CreateStatic(cg.next, s), t);
    case SVar(x) => EmitFreshSettled(cg, LoadStr(cg.next, x), t);
    case Concat(l, r) =>
      var (c1, a) := GenS(p, l, cg);
      var (c2, b) := GenS(p, r, c1);
      SettledS(p, l, cg, t);
      SettledS(p, r, c1, t);
      EmitTempSettled(c2, ConcatStr(c2.next, a, b), t);
    case Call(f, args) =>
      var (c1, regs) := GenArgs(p, args, cg);
      SettledArgs(p, args, cg, t);
      var c2 := c1.(moved := c1.moved + OwnMoves(args, ParamsOf(p, f)));
      MovedSettled(c1, c2.moved, t);
      EmitTempSettled(c2, CallFn(c2.next, f, regs), t);
  }

  lemma MovedSettled(cg: CG, moved: set<Var>, t: Reg)
    requires Settled(cg, t)
    ensures Settled(cg.(moved := moved), t)
  {
  }

  lemma {:induction false} SettledArgs(p: Program, es: seq<SExpr>, cg: CG, t: Reg)
    requires Ok(cg) && Settled(cg, t)
    ensures Settled(GenArgs(p, es, cg).0, t)
    decreases es
  {
    hide Settled, GenS;
    if es != [] {
      SettledArgs(p, es[..|es| - 1], cg, t);
      SettledS(p, es[|es| - 1], GenArgs(p, es[..|es| - 1], cg).0, t);
    }
  }

  /** A condition keeps every string it created pending, or has released it exactly once. */
  lemma {:induction false} SettledB(p: Program, e: BExpr, cg: CG, t: Reg)
    requires Ok(cg) && Settled(cg, t)
    ensures Settled(GenB(p, e, cg).0, t)
    decreases e
  {
    hide Settled, Emit, GenS, GenI, OpenRight, CloseRight, Prefixes, Spares;
    match e
    case Truthy(i) => SettledI(i, cg, t);
    case Cmp(op, l, r) =>
      var (c1, v) := GenI(l, cg);
      var (c2, w) := GenI(r, c1);
      SettledI(l, cg, t);
      SettledI(r, c1, t);
      EmitFreshSettled(c2, IntCmp(c2.next, op, v, w), t);
    case StrCmp(equal, l, r) =>
      var (c1, a) := GenS(p, l, cg);
      var (c2, b) := GenS(p, r, c1);
      SettledS(p, l, cg, t);
      SettledS(p, r, c1, t);
      EmitFreshSettled(c2, StringEquals(c2.next, a, b), t);
      var c3 := Emit(Fresh(c2), StringEquals(c2.next, a, b));
      EmitFreshSettled(c3, NotBool(c3.next, Tmp(c2.next)), t);
    case Logic(isAnd, l, r) =>
      var (c1, v) := GenB(p, l, cg);
      var c2 := OpenRight(c1, v, isAnd);
      var (c3, w) := GenB(p, r, c2);
      SettledB(p, l, cg, t);
      OpenRightSettled(c1, v, isAnd, t);
      SettledB(p, r, c2, t);
      CloseRightSettled(c1, c2, c3, w, isAnd, t);
  }

  // ---- Registers are taken once ----

  predicate KnownInstr(i: Instr, n: Reg) {
    && (i.StringRelease? ==> i.a < n)
    && (i.CreateStatic? || i.ConcatStr? || i.CallFn? ==> i.dst < n)
  }

  predicate KnownCode(code: seq<Instr>, n: Reg) {
    forall k :: 0 <= k < |code| ==> KnownInstr(code[k], n)
  }

  /** Nothing emitted or pending so far mentions a register that is still to be taken. */
  predicate Below(cg: CG) {
    && (forall b :: 0 <= b < |cg.blocks| ==> KnownCode(cg.blocks[b], cg.next))
    && (forall t :: t in cg.temps ==> t < cg.next)
  }

  lemma {:induction false} UnknownCode(code: seq<Instr>, n: Reg, t: Reg)
    requires KnownCode(code, n) && t >= n
    ensures MadeIn(code, t) == 0 && ReleasedIn(code, t) == 0
    decreases |code|
  {
    if code != [] {
      assert KnownInstr(code[|code| - 1], n);
      UnknownCode(code[..|code| - 1], n, t);
    }
  }

  lemma {:induction false} UnknownBlocks(bs: Blocks, n: Reg, t: Reg)
    requires (forall b :: 0 <= b < |bs| ==> KnownCode(bs[b], n)) && t >= n
    ensures Made(bs, t) == 0 && Released(bs, t) == 0
    decreases |bs|
  {
    if bs != [] {
      UnknownCode(bs[0], n, t);
      UnknownBlocks(bs[1..], n, t);
    }
  }

  lemma BelowSettles(cg: CG, t: Reg)
    requires Below(cg) && t >= cg.next
    ensures Settled(cg, t) && Made(cg.blocks, t) == 0 && Released(cg.blocks, t) == 0 && Pending(cg, t) == 0
  {
    UnknownBlocks(cg.blocks, cg.next, t);
    assert t !in cg.temps;
  }

  lemma KnownLater(code: seq<Instr>, n: Reg, m: Reg)
    requires KnownCode(code, n) && n <= m
    ensures KnownCode(code, m)
  {
  }

  /** The same blocks and pending temporaries, or fewer, at a later register. */
  lemma BelowLater(a: CG, b: CG)
    requires Below(a) && b.blocks == a.blocks && a.next <= b.next && forall t :: t in b.temps ==> t in a.temps
    ensures Below(b)
  {
    forall k | 0 <= k < |b.blocks| ensures KnownCode(b.blocks[k], b.next) { KnownLater(a.blocks[k], a.next, b.next); }
  }

  lemma EmitBelow(cg: CG, i: Instr)
    requires Ok(cg) && Below(cg) && KnownInstr(i, cg.next)
    ensures Below(Emit(cg, i))
  {
    var code := cg.blocks[cg.cur] + [i];
    assert KnownCode(cg.blocks[cg.cur], cg.next);
    forall k | 0 <= k < |code| ensures KnownInstr(code[k], cg.next) {}
  }

  lemma EmitFreshBelow(cg: CG, i: Instr)
    requires Ok(cg) && Below(cg) && KnownInstr(i, cg.next + 1)
    ensures Below(Emit(Fresh(cg), i))
  {
    hide KnownCode;
    BelowLater(cg, Fresh(cg));
    EmitBelow(Fresh(cg), i);
  }

  lemma AddBlocksBelow(cg: CG, k: nat)
    requires Ok(cg) && Below(cg)
    ensures Below(AddBlocks(cg, k))
  {
  }

  lemma {:induction false} ReleasesBelow(cg: CG, rs: seq<Reg>)
    requires Ok(cg) && Below(cg) && forall r :: r in rs ==> r < cg.next
    ensures Below(EmitReleases(cg, rs)) && EmitReleases(cg, rs).next == cg.next
    decreases rs
  {
    hide Below;
    if rs != [] {
      assert rs[0] in rs && forall r :: r in rs[1..] ==> r in rs;
      EmitBelow(cg, StringRelease(rs[0]));
      ReleasesBelow(Emit(cg, StringRelease(rs[0])), rs[1..]);
    }
  }

  lemma FlushBelow(cg: CG, mark: nat)
    requires Ok(cg) && Below(cg) && mark <= |cg.temps|
    ensures Below(FlushSince(cg, mark)) && FlushSince(cg, mark).next == cg.next
  {
    hide KnownCode;
    assert forall r :: r in cg.temps[mark..] ==> r in cg.temps;
    ReleasesBelow(cg, cg.temps[mark..]);
    BelowLater(EmitReleases(cg, cg.temps[mark..]), FlushSince(cg, mark));
  }

  lemma ReleaseTempsBelow(cg: CG)
    requires Ok(cg) && Below(cg)
    ensures Below(ReleaseTemps(cg))
  {
    hide KnownCode;
    if Terminated(cg) { BelowLater(cg, ReleaseTemps(cg)); } else { FlushBelow(cg, 0); }
  }

  /** Emission from `a` to `b` only took new registers for what it left pending. */
  predicate Grew(a: CG, b: CG) {
    && Below(b) && a.next <= b.next && a.temps <= b.temps
    && forall i :: |a.temps| <= i < |b.temps| ==> b.temps[i] >= a.next
  }

  lemma GrewTrans(a: CG, b: CG, c: CG)
    requires Grew(a, b) && Grew(b, c)
    ensures Grew(a, c)
  {
    hide Below;
  }

  lemma GrewEmit(a: CG, cg: CG, i: Instr)
    requires Ok(cg) && Grew(a, cg) && KnownInstr(i, cg.next + 1)
    ensures Grew(a, Emit(Fresh(cg), i))
  {
    EmitFreshBelow(cg, i);
    hide Below;
  }

  lemma GrewTemp(a: CG, cg: CG, i: Instr)
    requires Ok(cg) && Grew(a, cg) && (i.CreateStatic? || i.ConcatStr? || i.CallFn?) && i.dst == cg.next
    ensures Grew(a, EmitTemp(cg, i).0)
  {
    EmitFreshBelow(cg, i);
    var c1 := Emit(Fresh(cg), i);
    TrackBelow(c1, cg.next);
    hide Below, KnownInstr;
  }

  lemma TrackBelow(cg: CG, t: Reg)
    requires Ok(cg) && Below(cg) && t < cg.next
    ensures Below(TrackTemp(cg, t))
  {
    hide KnownCode;
  }

  lemma {:induction false} BelowI(e: IExpr, cg: CG)
    requires Ok(cg) && Below(cg)
    ensures Grew(cg, GenI(e, cg).0)
    decreases e
  {
    hide Below, Emit, Fresh;
    match e
    case IntLit(_) =>
    case IVar(x) => GrewEmit(cg, cg, LoadInt(cg.next, x));
    case Arith(op, l, r) =>
      var (c1, i) := GenI(l, cg);
      var (c2, j) := GenI(r, c1);
      BelowI(l, cg);
      BelowI(r, c1);
      GrewTrans(cg, c1, c2);
      GrewEmit(cg, c2, IntArith(c2.next, op, i, j));
  }

  lemma {:induction false} BelowS(p: Program, e: SExpr, cg: CG)
    requires Ok(cg) && Below(cg)
    ensures Grew(cg, GenS(p, e, cg).0)
    decreases e
  {
    hide Below, Emit, EmitTemp;
    match e
    case Lit(s) => GrewTemp(cg, cg, CreateStatic(cg.next, s));
    case SVar(x) => GrewEmit(cg, cg, LoadStr(cg.next, x));
    case Concat(l, r) =>
      var (c1, a) := GenS(p, l, cg);
      var (c2, b) := GenS(p, r, c1);
      BelowS(p, l, cg);
      BelowS(p, r, c1);
      GrewTrans(cg, c1, c2);
      GrewTemp(cg, c2, ConcatStr(c2.next, a, b));
    case Call(f, args) =>
      var (c1, regs) := GenArgs(p, args, cg);
      BelowArgs(p, args, cg);
      var c2 := c1.(moved := c1.moved + OwnMoves(args, ParamsOf(p, f)));
      BelowLater(c1, c2);
      GrewTemp(cg, c2, CallFn(c2.next, f, regs));
  }

  lemma {:induction false} BelowArgs(p: Program, es: seq<SExpr>, cg: CG)
    requires Ok(cg) && Below(cg)
    ensures Grew(cg, GenArgs(p, es, cg).0)
    decreases es
  {
    hide Below, GenS;
    if es != [] {
      var c1 := GenArgs(p, es[..|es| - 1], cg).0;
      BelowArgs(p, es[..|es| - 1], cg);
      BelowS(p, es[|es| - 1], c1);
      GrewTrans(cg, c1, GenS(p, es[|es| - 1], c1).0);
    }
  }

  lemma OpenRightBelow(c1: CG, v: Operand, isAnd: bool)
    requires Ok(c1) && Below(c1)
    ensures Grew(c1, OpenRight(c1, v, isAnd))
  {
    hide Below, Emit, AddBlocks, Prefixes, Spares, OpenRight;
    var rhs := |c1.blocks|;
    var test := IntCmp(c1.next, Ne, v, Imm(0));
    EmitFreshBelow(c1, test);
    AddBlocksBelow(Emit(Fresh(c1), test), 2);
    var c := AddBlocks(Emit(Fresh(c1), test), 2);
    var br := if isAnd then CondBr(Tmp(c1.next), rhs, rhs + 1) else CondBr(Tmp(c1.next), rhs + 1, rhs);
    OpenRightIs(c1, v, isAnd);
    EmitBelow(c, br);
    BelowLater(Emit(c, br), OpenRight(c1, v, isAnd));
  }

  lemma CloseRightBelow(c1: CG, c2: CG, c3: CG, w: Operand, isAnd: bool)
    requires Ok(c1) && Extends(c1, c2) && Extends(c2, c3) && Below(c3)
    requires |c2.blocks| == |c1.blocks| + 2 && c2.cur == |c1.blocks| && c2.blocks[|c1.blocks| + 1] == []
    ensures Grew(c1, CloseRight(c1, c2, c3, w, isAnd).0)
  {
    hide Below, Emit, FlushSince, Prefixes, Spares, JoinRight;
    CloseRightIs(c1, c2, c3, w);
    var merge := |c1.blocks| + 1;
    var test := IntCmp(c3.next, Ne, w, Imm(0));
    EmitFreshBelow(c3, test);
    FlushBelow(Emit(Fresh(c3), test), |c1.temps|);
    var c5 := FlushSince(Emit(Fresh(c3), test), |c1.temps|);
    EmitBelow(c5, Br(merge));
    var c6 := JoinRight(c1, c2, c3, w);
    BelowLater(Emit(c5, Br(merge)), c6);
    EmitFreshBelow(c6, Phi(c6.next, if isAnd then 0 else 1, c1.cur, Tmp(c3.next), c3.cur));
  }

  lemma {:induction false} BelowB(p: Program, e: BExpr, cg: CG)
    requires Ok(cg) && Below(cg)
    ensures Grew(cg, GenB(p, e, cg).0)
    decreases e
  {
    hide Below, Emit, Fresh, GenS, GenI, Prefixes, Spares, OpenRight, CloseRight, GenLogic;
    match e
    case Truthy(i) => BelowI(i, cg);
    case Cmp(op, l, r) =>
      var (c1, v) := GenI(l, cg);
      var (c2, u) := GenI(r, c1);
      BelowI(l, cg);
      BelowI(r, c1);
      GrewTrans(cg, c1, c2);
      GrewEmit(cg, c2, IntCmp(c2.next, op, v, u));
    case StrCmp(equal, l, r) =>
      var (c1, a) := GenS(p, l, cg);
      var (c2, b) := GenS(p, r, c1);
      BelowS(p, l, cg);
      BelowS(p, r, c1);
      GrewTrans(cg, c1, c2);
      GrewEmit(cg, c2, StringEquals(c2.next, a, b));
      var c3 := Emit(Fresh(c2), StringEquals(c2.next, a, b));
      GrewEmit(cg, c3, NotBool(c3.next, Tmp(c2.next)));
    case Logic(isAnd, l, r) =>
      var (c1, v) := GenB(p, l, cg);
      var c2 := OpenRight(c1, v, isAnd);
      var (c3, u) := GenB(p, r, c2);
      LogicIs(p, e, cg);
      BelowB(p, l, cg);
      OpenRightBelow(c1, v, isAnd);
      BelowB(p, r, c2);
      CloseRightBelow(c1, c2, c3, u, isAnd);
      GrewTrans(cg, c1, GenB(p, e, cg).0);
  }

  // ---- Confinement to the right-hand edge ----

  function Releases(ts: seq<Reg>): seq<Instr> {
    if ts == [] then [] else [StringRelease(ts[0])] + Releases(ts[1..])
  }

  lemma {:induction false} ReleasesAppend(cg: CG, rs: seq<Reg>)
    requires Ok(cg)
    ensures EmitReleases(cg, rs).blocks == cg.blocks[cg.cur := cg.blocks[cg.cur] + Releases(rs)]
    decreases rs
  {
    if rs == [] {
      assert cg.blocks[cg.cur] + [] == cg.blocks[cg.cur];
    } else {
      var c1 := Emit(cg, StringRelease(rs[0]));
      ReleasesAppend(c1, rs[1..]);
      var here := cg.blocks[cg.cur];
      assert here + [StringRelease(rs[0])] + Releases(rs[1..]) == here + ([StringRelease(rs[0])] + Releases(rs[1..]));
    }
  }

  /** The three states of `l && r`: after the left side, at the start of the right one, at its end. */
  function LeftDone(p: Program, e: BExpr, cg: CG): CG
    requires Ok(cg) && e.Logic?
  {
    GenB(p, e.bl, cg).0
  }

  function RightDone(p: Program, e: BExpr, cg: CG): CG
    requires Ok(cg) && e.Logic?
  {
    GenB(p, e.br, OpenRight(LeftDone(p, e, cg), GenB(p, e.bl, cg).1, e.isAnd)).0
  }

  /** The temporaries born on the right. */
  function Born(p: Program, e: BExpr, cg: CG): seq<Reg>
    requires Ok(cg) && e.Logic?
  {
    RightDone(p, e, cg).temps[|LeftDone(p, e, cg).temps|..]
  }

  lemma CloseRightBlocks(c1: CG, c2: CG, c3: CG, w: Operand, isAnd: bool)
    requires Ok(c1) && Extends(c1, c2) && Extends(c2, c3)
    requires |c2.blocks| == |c1.blocks| + 2 && c2.cur == |c1.blocks| && c2.blocks[|c1.blocks| + 1] == []
    ensures
      var merge := |c1.blocks| + 1;
      var test := IntCmp(c3.next, Ne, w, Imm(0));
      var phi := Phi(JoinRight(c1, c2, c3, w).next, if isAnd then 0 else 1, c1.cur, Tmp(c3.next), c3.cur);
      var r := CloseRight(c1, c2, c3, w, isAnd).0;
      && Ok(c3) && c1.temps <= c3.temps && merge < |c3.blocks| && c3.cur != merge && r.temps == c1.temps && r.cur == merge
      && r.blocks == c3.blocks[c3.cur := c3.blocks[c3.cur] + [test] + Releases(c3.temps[|c1.temps|..]) + [Br(merge)]]
                              [merge := [phi]]
  {
    hide Prefixes, Spares, Releases, JoinRight;
    CloseRightIs(c1, c2, c3, w);
    var merge := |c1.blocks| + 1;
    var test := IntCmp(c3.next, Ne, w, Imm(0));
    var born := c3.temps[|c1.temps|..];
    var c4 := Emit(Fresh(c3), test);
    ReleasesAppend(c4, born);
    var c5 := FlushSince(c4, |c1.temps|);
    assert c5.blocks == c3.blocks[c3.cur := c3.blocks[c3.cur] + [test] + Releases(born)];
    var c6 := JoinRight(c1, c2, c3, w);
    assert c6.blocks == c3.blocks[c3.cur := c3.blocks[c3.cur] + [test] + Releases(born) + [Br(merge)]];
    var phi := Phi(c6.next, if isAnd then 0 else 1, c1.cur, Tmp(c3.next), c3.cur);
    assert c6.blocks[c6.cur] == [] && c6.blocks[c6.cur] + [phi] == [phi];
  }

  /** A string born on the right is created once, and released once: at the end of the right side. */
  predicate ReleasedOnce(p: Program, e: BExpr, cg: CG, t: Reg)
    requires Ok(cg) && e.Logic?
  {
    var c1, c3, r := LeftDone(p, e, cg), RightDone(p, e, cg), GenB(p, e, cg).0;
    && Made(c1.blocks, t) == 0 && Made(c3.blocks, t) == 1 && Made(r.blocks, t) == 1
    && Released(c3.blocks, t) == 0 && Released(r.blocks, t) == 1 && t !in r.temps
    && |c1.blocks| <= c3.cur < |r.blocks| && c3.cur != |c1.blocks| + 1 && ReleasedIn(r.blocks[c3.cur], t) == 1
  }

  lemma BornIsReleasedOnce(p: Program, e: BExpr, cg: CG, t: Reg)
    requires Ok(cg) && e.Logic? && Below(cg) && t in Born(p, e, cg)
    ensures ReleasedOnce(p, e, cg, t)
  {
    hide Settled, Made, Released, ReleasedIn, GenB, OpenRight, CloseRight, Prefixes, Spares, Below, Releases;
    var (c1, v) := GenB(p, e.bl, cg);
    var c2 := OpenRight(c1, v, e.isAnd);
    var c3 := RightDone(p, e, cg);
    LogicIs(p, e, cg);
    BornIsNew(p, e, cg, t);
    BelowSettles(c1, t);
    OpenRightSettled(c1, v, e.isAnd, t);
    SettledB(p, e.br, c2, t);
    CloseRightSettled(c1, c2, c3, GenB(p, e.br, c2).1, e.isAnd, t);
    MadeStays(c1, c2, c3, GenB(p, e.br, c2).1, e.isAnd, t);
    OnceSettled(c3, GenB(p, e, cg).0, |c1.temps|, t);
    ReleasedAtEnd(c1, c2, c3, GenB(p, e.br, c2).1, e.isAnd, t);
  }

  /** A register born on the right was not taken when the left side was done. */
  lemma BornIsNew(p: Program, e: BExpr, cg: CG, t: Reg)
    requires Ok(cg) && e.Logic? && Below(cg) && t in Born(p, e, cg)
    ensures Below(LeftDone(p, e, cg)) && t >= LeftDone(p, e, cg).next
  {
    hide GenB, OpenRight, CloseRight, Prefixes, Spares, Below;
    var (c1, v) := GenB(p, e.bl, cg);
    var c2 := OpenRight(c1, v, e.isAnd);
    LogicIs(p, e, cg);
    BelowB(p, e.bl, cg);
    OpenRightBelow(c1, v, e.isAnd);
    BelowB(p, e.br, c2);
  }

  lemma ReleasedAtEnd(c1: CG, c2: CG, c3: CG, w: Operand, isAnd: bool, t: Reg)
    requires Ok(c1) && Extends(c1, c2) && Extends(c2, c3)
    requires |c2.blocks| == |c1.blocks| + 2 && c2.cur == |c1.blocks| && c2.blocks[|c1.blocks| + 1] == []
    requires c1.temps <= c3.temps && t in c3.temps[|c1.temps|..]
    requires Released(CloseRight(c1, c2, c3, w, isAnd).0.blocks, t) == 1
    ensures |c1.blocks| <= c3.cur < |CloseRight(c1, c2, c3, w, isAnd).0.blocks| && c3.cur != |c1.blocks| + 1
    ensures ReleasedIn(CloseRight(c1, c2, c3, w, isAnd).0.blocks[c3.cur], t) == 1
  {
    hide Released, Releases, CloseRight, JoinRight, Prefixes, Spares;
    CloseRightBlocks(c1, c2, c3, w, isAnd);
    CurrentIsRight(c1, c2, c3);
    var r := CloseRight(c1, c2, c3, w, isAnd).0;
    var test, born, br := IntCmp(c3.next, Ne, w, Imm(0)), c3.temps[|c1.temps|..], Br(|c1.blocks| + 1);
    var code := r.blocks[c3.cur];
    assert code == c3.blocks[c3.cur] + [test] + Releases(born) + [br];
    ReleasedJoin(c3.blocks[c3.cur] + [test], Releases(born), t);
    ReleasedJoin(c3.blocks[c3.cur] + [test] + Releases(born), [br], t);
    ReleasedEach(born, t);
    InOneBlock(r.blocks, c3.cur, t);
  }

  lemma CurrentIsRight(c1: CG, c2: CG, c3: CG)
    requires Ok(c1) && Extends(c1, c2) && Extends(c2, c3) && c2.cur == |c1.blocks| && |c2.blocks| == |c1.blocks| + 2
    ensures |c1.blocks| <= c3.cur
  {
    hide Spares;
  }

  lemma {:induction false} ReleasedJoin(a: seq<Instr>, b: seq<Instr>, t: Reg)
    ensures ReleasedIn(a + b, t) == ReleasedIn(a, t) + ReleasedIn(b, t)
    decreases |b|
  {
    if b == [] {
      assert a + b == a;
    } else {
      assert (a + b)[..|a + b| - 1] == a + b[..|b| - 1];
      ReleasedJoin(a, b[..|b| - 1], t);
    }
  }

  lemma {:induction false} ReleasedEach(ts: seq<Reg>, t: Reg)
    ensures t in ts ==> ReleasedIn(Releases(ts), t) >= 1
    decreases |ts|
  {
    if ts != [] {
      ReleasedEach(ts[1..], t);
      ReleasedJoin([StringRelease(ts[0])], Releases(ts[1..]), t);
      assert [StringRelease(ts[0])][..0] == [];
    }
  }

  lemma {:induction false} InOneBlock(bs: Blocks, k: nat, t: Reg)
    requires k < |bs|
    ensures ReleasedIn(bs[k], t) <= Released(bs, t)
    decreases |bs|
  {
    if k > 0 { InOneBlock(bs[1..], k - 1, t); }
  }

  lemma OnceSettled(c3: CG, r: CG, mark: nat, t: Reg)
    requires Settled(c3, t) && Settled(r, t) && Made(r.blocks, t) == Made(c3.blocks, t)
    requires mark <= |c3.temps| && t in c3.temps[mark..] && r.temps == c3.temps[..mark]
    ensures Made(c3.blocks, t) == 1 && Released(c3.blocks, t) == 0 && Released(r.blocks, t) == 1 && t !in r.temps
  {
    hide Made, Released;
    assert c3.temps == r.temps + c3.temps[mark..];
    assert multiset(c3.temps) == multiset(r.temps) + multiset(c3.temps[mark..]);
  }

  lemma {:induction false} MadeByReleases(cg: CG, rs: seq<Reg>, t: Reg)
    requires Ok(cg)
    ensures Made(EmitReleases(cg, rs).blocks, t) == Made(cg.blocks, t)
    decreases rs
  {
    hide Made;
    if rs != [] {
      Appended(cg.blocks, cg.cur, StringRelease(rs[0]), t);
      MadeByReleases(Emit(cg, StringRelease(rs[0])), rs[1..], t);
    }
  }

  lemma MadeStays(c1: CG, c2: CG, c3: CG, w: Operand, isAnd: bool, t: Reg)
    requires Ok(c1) && Extends(c1, c2) && Extends(c2, c3)
    requires |c2.blocks| == |c1.blocks| + 2 && c2.cur == |c1.blocks| && c2.blocks[|c1.blocks| + 1] == []
    ensures Made(CloseRight(c1, c2, c3, w, isAnd).0.blocks, t) == Made(c3.blocks, t)
    ensures c1.temps <= c3.temps && CloseRight(c1, c2, c3, w, isAnd).0.temps == c3.temps[..|c1.temps|]
  {
    hide Made, Prefixes, Spares, JoinRight;
    CloseRightIs(c1, c2, c3, w);
    var merge := |c1.blocks| + 1;
    var test := IntCmp(c3.next, Ne, w, Imm(0));
    Appended(c3.blocks, c3.cur, test, t);
    var c4 := Emit(Fresh(c3), test);
    MadeByReleases(c4, c3.temps[|c1.temps|..], t);
    var c5 := FlushSince(c4, |c1.temps|);
    Appended(c5.blocks, c5.cur, Br(merge), t);
    var c6 := JoinRight(c1, c2, c3, w);
    Appended(c6.blocks, c6.cur, Phi(c6.next, if isAnd then 0 else 1, c1.cur, Tmp(c3.next), c3.cur), t);
  }

  // ---- Statements keep registers fresh ----

  lemma JoinBelow(cg: CG, b: nat)
    requires Ok(cg) && Below(cg)
    ensures Below(JoinTo(cg, b))
  {
    hide Below, Emit;
    if !Terminated(cg) { EmitBelow(cg, Br(b)); }
  }

  lemma {:induction false} ReleaseVarsBelow(cg: CG, xs: seq<Var>)
    requires Ok(cg) && Below(cg)
    ensures Below(ReleaseVars(cg, xs))
    decreases xs
  {
    hide Below, Emit, Fresh;
    if xs == [] {
    } else if xs[0] in cg.moved {
      ReleaseVarsBelow(cg, xs[1..]);
    } else {
      var c1 := Emit(Fresh(cg), LoadStr(cg.next, xs[0]));
      OneReleaseBelow(cg, xs[0]);
      ReleaseVarsBelow(Emit(c1, StringRelease(cg.next)), xs[1..]);
    }
  }

  lemma OneReleaseBelow(cg: CG, x: Var)
    requires Ok(cg) && Below(cg)
    ensures Below(Emit(Emit(Fresh(cg), LoadStr(cg.next, x)), StringRelease(cg.next)))
  {
    hide Below;
    EmitFreshBelow(cg, LoadStr(cg.next, x));
    EmitBelow(Emit(Fresh(cg), LoadStr(cg.next, x)), StringRelease(cg.next));
  }

  lemma {:induction false} WithoutFewer(ts: seq<Reg>, r: Reg)
    ensures forall t :: t in Without(ts, r) ==> t in ts
    decreases |ts|
  {
    if ts != [] && ts[0] != r { WithoutFewer(ts[1..], r); }
  }

  lemma UntrackBelow(cg: CG, r: Reg)
    requires Ok(cg) && Below(cg)
    ensures Below(UntrackTemp(cg, r))
  {
    WithoutFewer(cg.temps, r);
    BelowLater(cg, UntrackTemp(cg, r));
  }

  lemma DeclBelow(p: Program, x: Var, e: SExpr, cg: CG)
    requires Ok(cg) && cg.scopes != [] && Below(cg)
    ensures Below(GenDecl(p, x, e, cg))
  {
    hide Below, Emit, UntrackTemp, GenS, Prefixes, Spares;
    var c0 := Declare(cg, x);
    BelowLater(cg, c0);
    BelowS(p, e, c0);
    var (c1, a) := GenS(p, e, c0);
    EmitBelow(c1, StringRetain(a));
    var c2 := if e.SVar? && !IsMove(x, e) then Emit(c1, StringRetain(a)) else c1;
    EmitBelow(c2, StoreStr(x, a));
    UntrackBelow(Emit(c2, StoreStr(x, a)), a);
    var c3 := UntrackTemp(Emit(c2, StoreStr(x, a)), a);
    BelowLater(c3, MarkMove(c3, x, e));
  }

  lemma AssignBelow(p: Program, x: Var, e: SExpr, cg: CG)
    requires Ok(cg) && Below(cg)
    ensures Below(GenAssign(p, x, e, cg))
  {
    hide Below, Emit, UntrackTemp, GenS, Prefixes, Spares;
    BelowS(p, e, cg);
    var (c1, a) := GenS(p, e, cg);
    OneReleaseBelow(c1, x);
    var c3 := Emit(Emit(Fresh(c1), LoadStr(c1.next, x)), StringRelease(c1.next));
    UntrackBelow(c3, a);
    EmitBelow(UntrackTemp(c3, a), StoreStr(x, a));
    var c4 := Emit(UntrackTemp(c3, a), StoreStr(x, a));
    BelowLater(c4, MarkMove(c4, x, e));
  }

  lemma ReturnBelow(p: Program, e: SExpr, cg: CG)
    requires Ok(cg) && Below(cg)
    ensures Below(GenReturn(p, e, cg))
  {
    hide Below, Emit, GenS, ReleaseTemps, ReleaseVars, ReleaseOrder, Prefixes, Spares;
    BelowS(p, e, cg);
    var (c1, a) := GenS(p, e, cg);
    EmitBelow(c1, StringRetain(a));
    ReleaseTempsBelow(Emit(c1, StringRetain(a)));
    var c2 := ReleaseTemps(Emit(c1, StringRetain(a)));
    ReleaseVarsBelow(c2, ReleaseOrder(c2.scopes));
    EmitBelow(ReleaseVars(c2, ReleaseOrder(c2.scopes)), Machine.Ret(a));
  }

  lemma CondBelow(p: Program, e: BExpr, cg: CG)
    requires Ok(cg) && Below(cg)
    ensures Below(GenCond(p, e, cg).0)
  {
    hide Below, Emit, GenB, Prefixes, Spares;
    BelowB(p, e, cg);
    var (c1, v) := GenB(p, e, cg);
    EmitFreshBelow(c1, IntCmp(c1.next, Ne, v, Imm(0)));
  }

  lemma SplitBelow(c1: CG, v: Operand)
    requires Ok(c1) && Below(c1)
    ensures Below(SplitIf(c1, v))
  {
    hide Below, Emit, AddBlocks, ReleaseTemps, Prefixes, Spares;
    ReleaseTempsBelow(c1);
    AddBlocksBelow(ReleaseTemps(c1), 3);
    var c, t := AddBlocks(ReleaseTemps(c1), 3), |c1.blocks|;
    EmitBelow(c, CondBr(v, t, t + 1));
    BelowLater(Emit(c, CondBr(v, t, t + 1)), SplitIf(c1, v));
  }

  lemma OpenWhileBelow(cg: CG)
    requires Ok(cg) && Below(cg)
    ensures Below(OpenWhile(cg))
  {
    hide Below, Emit, AddBlocks, Prefixes, Spares;
    AddBlocksBelow(cg, 3);
    EmitBelow(AddBlocks(cg, 3), Br(|cg.blocks|));
    BelowLater(Emit(AddBlocks(cg, 3), Br(|cg.blocks|)), OpenWhile(cg));
  }

  lemma WhileBelow(p: Program, s: Stmt, cg: CG)
    requires Ok(cg) && s.While? && Below(cg)
    ensures Below(OpenWhile(cg)) && Below(WhileStart(p, s, cg))
  {
    hide Below, Emit, OpenWhile, GenCond, ReleaseTemps, Prefixes, Spares;
    OpenWhileBelow(cg);
    CondBelow(p, s.cond, OpenWhile(cg));
    var (c2, v) := GenCond(p, s.cond, OpenWhile(cg));
    ReleaseTempsBelow(c2);
    var c := Emit(ReleaseTemps(c2), CondBr(v, |cg.blocks| + 1, |cg.blocks| + 2));
    EmitBelow(ReleaseTemps(c2), CondBr(v, |cg.blocks| + 1, |cg.blocks| + 2));
    BelowLater(c, WhileStart(p, s, cg));
  }

  lemma RangeBelow(s: Stmt, cg: CG)
    requires Ok(cg) && s.ForRange? && Below(cg)
    ensures Below(RangeStart(s, cg))
  {
    hide Below, Emit, Fresh, Bounds, RangeInit, RangeTest, Prefixes, Spares;
    BoundsBelow(s.lo, s.hi, cg);
    var (c2, v, u) := Bounds(s.lo, s.hi, cg);
    InitBelow(c2, s.ix, v);
    TestBelow(RangeInit(c2, s.ix, v), s.ix, u, |cg.blocks|);
    BelowLater(RangeTest(RangeInit(c2, s.ix, v), s.ix, u, |cg.blocks|), RangeStart(s, cg));
  }

  lemma BoundsBelow(lo: IExpr, hi: IExpr, cg: CG)
    requires Ok(cg) && Below(cg)
    ensures Below(Bounds(lo, hi, cg).0)
  {
    hide Below, GenI;
    BelowI(lo, cg);
    BelowI(hi, GenI(lo, cg).0);
  }

  lemma InitBelow(c2: CG, x: Var, v: Operand)
    requires Ok(c2) && Below(c2)
    ensures Below(RangeInit(c2, x, v))
  {
    hide Below, Emit, AddBlocks, Prefixes, Spares;
    EmitBelow(c2, StoreInt(x, v));
    AddBlocksBelow(Emit(c2, StoreInt(x, v)), 4);
    var c, b := AddBlocks(Emit(c2, StoreInt(x, v)), 4), |c2.blocks|;
    EmitBelow(c, Br(b));
    BelowLater(Emit(c, Br(b)), RangeInit(c2, x, v));
  }

  lemma TestBelow(c4: CG, x: Var, u: Operand, b: nat)
    requires Ok(c4) && Below(c4)
    ensures Below(RangeTest(c4, x, u, b))
  {
    hide Below, Emit, Fresh, Prefixes, Spares;
    EmitFreshBelow(c4, LoadInt(c4.next, x));
    var c5 := Emit(Fresh(c4), LoadInt(c4.next, x));
    EmitFreshBelow(c5, IntCmp(c5.next, Lt, Tmp(c4.next), u));
    var c6 := Emit(Fresh(c5), IntCmp(c5.next, Lt, Tmp(c4.next), u));
    EmitBelow(c6, CondBr(Tmp(c5.next), b + 1, b + 3));
  }

  lemma CountUpBelow(c1: CG, x: Var, b: nat)
    requires Ok(c1) && Below(c1)
    ensures Below(CountUp(c1, x, b))
  {
    hide Below, Emit, Fresh, Prefixes, Spares;
    EmitFreshBelow(c1, LoadInt(c1.next, x));
    var c2 := Emit(Fresh(c1), LoadInt(c1.next, x));
    EmitFreshBelow(c2, IntArith(c2.next, Add, Tmp(c1.next), Imm(1)));
    var c3 := Emit(Fresh(c2), IntArith(c2.next, Add, Tmp(c1.next), Imm(1)));
    EmitBelow(c3, StoreInt(x, Tmp(c2.next)));
    EmitBelow(Emit(c3, StoreInt(x, Tmp(c2.next))), Br(b));
  }

  lemma ForeverBelow(cg: CG)
    requires Ok(cg) && Below(cg)
    ensures Below(EnterForever(cg))
  {
    hide Below, Emit, AddBlocks, Prefixes, Spares;
    AddBlocksBelow(cg, 2);
    EmitBelow(AddBlocks(cg, 2), Br(|cg.blocks|));
    BelowLater(Emit(AddBlocks(cg, 2), Br(|cg.blocks|)), EnterForever(cg));
  }

  lemma {:induction false} StoreArgsBelow(cg: CG, xs: seq<Var>, k: nat)
    requires Ok(cg) && Below(cg)
    ensures Below(StoreArgs(cg, xs, k))
    decreases xs
  {
    hide Below, Emit;
    if xs != [] {
      EmitBelow(cg, StoreArg(xs[0], k));
      StoreArgsBelow(Emit(cg, StoreArg(xs[0], k)), xs[1..], k + 1);
    }
  }

  lemma PrologueBelow(f: Fun)
    ensures Below(Prologue(f))
  {
    hide StoreArgs;
    StoreArgsBelow(EMPTY, f.params, 0);
    BelowLater(StoreArgs(EMPTY, f.params, 0), Prologue(f));
  }

  // ---- Every condition of every function ----

  /** The strings born on the right of each `&&` and `||` in a condition are released once. */
  predicate Confined(p: Program, e: BExpr, cg: CG)
    requires Ok(cg)
    decreases e
  {
    e.Logic? ==>
      && (forall t :: t in Born(p, e, cg) ==> ReleasedOnce(p, e, cg, t))
      && Confined(p, e.bl, cg)
      && Confined(p, e.br, OpenRight(LeftDone(p, e, cg), GenB(p, e.bl, cg).1, e.isAnd))
  }

  predicate StmtConfined(p: Program, s: Stmt, cg: CG)
    requires Ok(cg) && cg.scopes != []
    decreases s, 1
  {
    match s
    case Block(body) => BlockConfined(p, body, cg)
    case If(e, thn, els) =>
      && Confined(p, e, cg)
      && BlockConfined(p, thn, ThenStart(p, s, cg)) && BlockConfined(p, els, ElseStart(p, s, cg))
    case While(e, body) => Confined(p, e, OpenWhile(cg)) && BlockConfined(p, body, WhileStart(p, s, cg))
    case ForRange(_, _, _, body) => BlockConfined(p, body, RangeStart(s, cg))
    case Forever(body) => BlockConfined(p, body, EnterForever(cg))
    case _ => true
  }

  predicate BlockConfined(p: Program, ss: seq<Stmt>, cg: CG)
    requires Ok(cg)
    decreases ss, 1
  {
    StmtsConfined(p, ss, PushScope(cg))
  }

  predicate StmtsConfined(p: Program, ss: seq<Stmt>, cg: CG)
    requires Ok(cg) && cg.scopes != []
    decreases ss, 0
  {
    ss != [] && !Terminated(cg) ==>
      StmtConfined(p, ss[0], cg) && StmtsConfined(p, ss[1..], ReleaseTemps(GenStmt(p, ss[0], cg)))
  }

  lemma {:induction false} ConditionConfined(p: Program, e: BExpr, cg: CG)
    requires Ok(cg) && Below(cg)
    ensures Confined(p, e, cg)
    decreases e
  {
    hide Below, GenB, OpenRight, ReleasedOnce, Prefixes, Spares;
    if e.Logic? {
      forall t | t in Born(p, e, cg) ensures ReleasedOnce(p, e, cg, t) { BornIsReleasedOnce(p, e, cg, t); }
      ConditionConfined(p, e.bl, cg);
      BelowB(p, e.bl, cg);
      OpenRightBelow(LeftDone(p, e, cg), GenB(p, e.bl, cg).1, e.isAnd);
      ConditionConfined(p, e.br, OpenRight(LeftDone(p, e, cg), GenB(p, e.bl, cg).1, e.isAnd));
    }
  }

  /** Generation keeps registers fresh, through all statements, and confines every condition. */
  lemma {:induction false} StmtKeeps(p: Program, s: Stmt, cg: CG)
    requires Ok(cg) && cg.scopes != [] && Below(cg)
    ensures Below(GenStmt(p, s, cg)) && StmtConfined(p, s, cg)
    decreases s, 1
  {
    hide Below, GenS, GenDecl, GenAssign, GenReturn, GenBlock, GenIf, GenWhile, GenRange, GenForever, Emit, GenI,
      BlockConfined, Confined, ThenStart, ElseStart, WhileStart, RangeStart, EnterForever, OpenWhile, Prefixes, Spares;
    match s
    case DeclStr(x, e) => DeclBelow(p, x, e, cg);
    case AssignStr(x, e) => AssignBelow(p, x, e, cg);
    case DeclEmpty(x) => BelowLater(cg, Declare(cg, x));
    case DeclInt(x, e) => StoreIntBelow(x, e, cg);
    case AssignInt(x, e) => StoreIntBelow(x, e, cg);
    case Eval(e) => BelowS(p, e, cg);
    case Return(e) => ReturnBelow(p, e, cg);
    case Break => if cg.loops.InLoop? { EmitBelow(cg, Br(cg.loops.breakTo)); }
    case Continue => if cg.loops.InLoop? { EmitBelow(cg, Br(cg.loops.continueTo)); }
    case Block(body) => BlockKeeps(p, body, cg);
    case If(_, _, _) => IfKeeps(p, s, cg);
    case While(_, _) => WhileKeeps(p, s, cg);
    case ForRange(_, _, _, _) => RangeKeeps(p, s, cg);
    case Forever(_) => ForeverKeeps(p, s, cg);
  }

  lemma StoreIntBelow(x: Var, e: IExpr, cg: CG)
    requires Ok(cg) && Below(cg)
    ensures Below(GenStoreInt(x, e, cg))
  {
    hide Below, GenI, Emit;
    BelowI(e, cg);
    EmitBelow(GenI(e, cg).0, StoreInt(x, GenI(e, cg).1));
  }

  lemma {:induction false} IfKeeps(p: Program, s: Stmt, cg: CG)
    requires Ok(cg) && cg.scopes != [] && s.If? && Below(cg)
    ensures Below(GenIf(p, s, cg)) && Confined(p, s.cond, cg)
    ensures BlockConfined(p, s.thn, ThenStart(p, s, cg)) && BlockConfined(p, s.els, ElseStart(p, s, cg))
    decreases s, 0
  {
    hide Below, GenCond, GenBlock, SplitIf, JoinTo, BlockConfined, Confined, Prefixes, Spares;
    ConditionConfined(p, s.cond, cg);
    CondBelow(p, s.cond, cg);
    var (c1, v) := GenCond(p, s.cond, cg);
    SplitBelow(c1, v);
    BlockKeeps(p, s.thn, ThenStart(p, s, cg));
    JoinBelow(GenBlock(p, s.thn, ThenStart(p, s, cg)), IfBase(p, s, cg) + 2);
    BelowLater(ThenEnd(p, s, cg), ElseStart(p, s, cg));
    BlockKeeps(p, s.els, ElseStart(p, s, cg));
    JoinBelow(GenBlock(p, s.els, ElseStart(p, s, cg)), IfBase(p, s, cg) + 2);
    BelowLater(ElseEnd(p, s, cg), GenIf(p, s, cg));
  }

  lemma {:induction false} WhileKeeps(p: Program, s: Stmt, cg: CG)
    requires Ok(cg) && cg.scopes != [] && s.While? && Below(cg)
    ensures Below(GenWhile(p, s, cg)) && Confined(p, s.cond, OpenWhile(cg))
    ensures BlockConfined(p, s.body, WhileStart(p, s, cg))
    decreases s, 0
  {
    hide Below, GenBlock, JoinTo, BlockConfined, Confined, WhileStart, OpenWhile, Prefixes, Spares;
    WhileBelow(p, s, cg);
    ConditionConfined(p, s.cond, OpenWhile(cg));
    BlockKeeps(p, s.body, WhileStart(p, s, cg));
    JoinBelow(GenBlock(p, s.body, WhileStart(p, s, cg)), |cg.blocks|);
    BelowLater(JoinTo(GenBlock(p, s.body, WhileStart(p, s, cg)), |cg.blocks|), GenWhile(p, s, cg));
  }

  lemma {:induction false} RangeKeeps(p: Program, s: Stmt, cg: CG)
    requires Ok(cg) && cg.scopes != [] && s.ForRange? && Below(cg)
    ensures Below(GenRange(p, s, cg)) && BlockConfined(p, s.body, RangeStart(s, cg))
    decreases s, 0
  {
    hide Below, GenBlock, JoinTo, BlockConfined, RangeStart, CountUp, Prefixes, Spares;
    RangeBelow(s, cg);
    BlockKeeps(p, s.body, RangeStart(s, cg));
    var b := |cg.blocks|;
    JoinBelow(GenBlock(p, s.body, RangeStart(s, cg)), b + 2);
    var c4 := JoinTo(GenBlock(p, s.body, RangeStart(s, cg)), b + 2);
    RangeEnds(p, s, cg);
    BelowLater(c4, SetInsertPoint(c4, b + 2));
    CountUpBelow(SetInsertPoint(c4, b + 2), s.ix, b);
    BelowLater(CountUp(SetInsertPoint(c4, b + 2), s.ix, b), GenRange(p, s, cg));
  }

  lemma RangeEnds(p: Program, s: Stmt, cg: CG)
    requires Ok(cg) && s.ForRange?
    ensures Ok(JoinTo(GenBlock(p, s.body, RangeStart(s, cg)), |cg.blocks| + 2))
    ensures |cg.blocks| + 4 <= |JoinTo(GenBlock(p, s.body, RangeStart(s, cg)), |cg.blocks| + 2).blocks|
  {
    hide GenBlock, JoinTo, RangeStart;
  }

  lemma {:induction false} ForeverKeeps(p: Program, s: Stmt, cg: CG)
    requires Ok(cg) && cg.scopes != [] && s.Forever? && Below(cg)
    ensures Below(GenForever(p, s, cg)) && BlockConfined(p, s.body, EnterForever(cg))
    decreases s, 0
  {
    hide Below, GenBlock, JoinTo, BlockConfined, EnterForever, Prefixes, Spares;
    ForeverBelow(cg);
    BlockKeeps(p, s.body, EnterForever(cg));
    JoinBelow(GenBlock(p, s.body, EnterForever(cg)), |cg.blocks|);
    BelowLater(JoinTo(GenBlock(p, s.body, EnterForever(cg)), |cg.blocks|), GenForever(p, s, cg));
  }

  lemma {:induction false} BlockKeeps(p: Program, ss: seq<Stmt>, cg: CG)
    requires Ok(cg) && Below(cg)
    ensures Below(GenBlock(p, ss, cg)) && BlockConfined(p, ss, cg)
    decreases ss, 1
  {
    hide Below, GenStmts, StmtsConfined, ReleaseVars, Prefixes, Spares, Terminated;
    BelowLater(cg, PushScope(cg));
    StmtsKeep(p, ss, PushScope(cg));
    var c1 := GenStmts(p, ss, PushScope(cg));
    var last := c1.scopes[|c1.scopes| - 1];
    ReleaseVarsBelow(c1, last);
    BelowLater(if Terminated(c1) then c1 else ReleaseVars(c1, last), GenBlock(p, ss, cg));
  }

  lemma {:induction false} StmtsKeep(p: Program, ss: seq<Stmt>, cg: CG)
    requires Ok(cg) && cg.scopes != [] && Below(cg)
    ensures Below(GenStmts(p, ss, cg)) && StmtsConfined(p, ss, cg)
    decreases ss, 0
  {
    hide Below, GenStmt, StmtConfined, ReleaseTemps, Prefixes, Spares, Terminated;
    if ss != [] && !Terminated(cg) {
      StmtKeeps(p, ss[0], cg);
      ReleaseTempsBelow(GenStmt(p, ss[0], cg));
      StmtsKeep(p, ss[1..], ReleaseTemps(GenStmt(p, ss[0], cg)));
    }
  }

  /** In every function, for every condition, each string born on the right is released once. */
  lemma FunctionConfined(p: Program, f: Fun)
    ensures BlockConfined(p, f.body, Prologue(f)) && Below(GenBody(p, f))
  {
    PrologueBelow(f);
    BlockKeeps(p, f.body, Prologue(f));
  }
}
