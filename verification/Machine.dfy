/**
 The target: functions of basic blocks, run by a machine that counts references.

 The machine goes `Stuck` on everything the emitted program must never do: use or release a
 string whose count is zero, read a register or a slot that was not written on the path
 taken, or run off the end of a block.
 */
module Machine {
  import opened Source

  type Reg = nat
  type Obj = nat  // 0 is the null pointer

  datatype Operand = Imm(n: int) | Tmp(r: Reg)

  datatype Instr =
    | CreateStatic(dst: Reg, text: string)
    | ConcatStr(dst: Reg, a: Reg, b: Reg)
    | CallFn(dst: Reg, f: nat, args: seq<Reg>)
    | StringRetain(a: Reg)
    | StringRelease(a: Reg)
    | LoadStr(dst: Reg, x: Var)
    | StoreStr(x: Var, a: Reg)
    | StoreArg(x: Var, index: nat)
    | LoadInt(dst: Reg, x: Var)
    | StoreInt(x: Var, i: Operand)
    | IntArith(dst: Reg, aop: ArithOp, i: Operand, j: Operand)
    | IntCmp(dst: Reg, cop: CmpOp, i: Operand, j: Operand)
    | StringEquals(dst: Reg, a: Reg, b: Reg)
    | NotBool(dst: Reg, i: Operand)
    | Phi(dst: Reg, constant: int, fromBlock: nat, i: Operand, otherBlock: nat)
    | Br(target: nat)
    | CondBr(i: Operand, yes: nat, no: nat)
    | Ret(a: Reg)
    | RetNull
  {
    predicate IsTerminator() {
      Br? || CondBr? || Ret? || RetNull?
    }
  }

  type Blocks = seq<seq<Instr>>
  type Code = seq<Blocks>

  // ---- Heap of counted strings ----

  datatype Cell = Cell(count: int, text: string)
  datatype Heap = Heap(cells: map<Obj, Cell>, next: Obj)

  /** Null and every string with a positive count may be used. */
  predicate Alive(h: Heap, o: Obj) {
    o == 0 || (o in h.cells && h.cells[o].count > 0)
  }

  function Content(h: Heap, o: Obj): SVal {
    if o in h.cells && o != 0 then Text(h.cells[o].text) else Null
  }

  function Alloc(h: Heap, text: string): Heap {
    Heap(h.cells[h.next := Cell(1, text)], h.next + 1)
  }

  /** Add `d` to a count; null is ignored, as the runtime does. */
  function Recount(h: Heap, o: Obj, d: int): Heap {
    if o == 0 || o !in h.cells then h
    else h.(cells := h.cells[o := h.cells[o].(count := h.cells[o].count + d)])
  }

  // ---- Machine states ----

  datatype Frame = Frame(fn: nat, bb: nat, pc: nat, prev: nat, dst: Reg, args: seq<Obj>,
                         sregs: map<Reg, Obj>, iregs: map<Reg, int>,
                         svars: map<Var, Obj>, ivars: map<Var, int>)

  datatype State =
    | Running(top: Frame, rest: seq<Frame>, heap: Heap)
    | Halted(o: Obj, heap: Heap)
    | Stuck

  predicate Defined(f: Frame, i: Operand) {
    i.Imm? || i.r in f.iregs
  }

  function IntOf(f: Frame, i: Operand): int
    requires Defined(f, i)
  {
    if i.Imm? then i.n else f.iregs[i.r]
  }

  /** Register `a` was written and holds a usable string. */
  predicate Usable(f: Frame, h: Heap, a: Reg) {
    a in f.sregs && Alive(h, f.sregs[a])
  }

  function SetS(f: Frame, dst: Reg, o: Obj): Frame {
    f.(sregs := f.sregs[dst := o], pc := f.pc + 1)
  }

  function SetI(f: Frame, dst: Reg, n: int): Frame {
    f.(iregs := f.iregs[dst := n], pc := f.pc + 1)
  }

  function Jump(f: Frame, b: nat): Frame {
    f.(bb := b, pc := 0, prev := f.bb)
  }

  function Entry(fn: nat, dst: Reg, args: seq<Obj>): Frame {
    Frame(fn, 0, 0, 0, dst, args, map[], map[], map[], map[])
  }

  function ArgObjs(f: Frame, args: seq<Reg>): (r: seq<Obj>)
    requires forall a :: a in args ==> a in f.sregs
    ensures |r| == |args| && forall k :: 0 <= k < |r| ==> r[k] == f.sregs[args[k]]
  {
    seq(|args|, k requires 0 <= k < |args| => f.sregs[args[k]])
  }

  function BoolInt(b: bool): int {
    if b then 1 else 0
  }

  /** Leave the current frame with result `o`. */
  function PopFrame(rest: seq<Frame>, dst: Reg, o: Obj, h: Heap): State {
    if rest == [] then Halted(o, h)
    else Running(rest[0].(sregs := rest[0].sregs[dst := o]), rest[1..], h)
  }

  /** The effect of one instruction. */
  function Effect(i: Instr, f: Frame, rest: seq<Frame>, h: Heap): State {
    match i
    case CreateStatic(dst, t) => Running(SetS(f, dst, h.next), rest, Alloc(h, t))
    case ConcatStr(dst, a, b) =>
      if Usable(f, h, a) && Usable(f, h, b) then
        Running(SetS(f, dst, h.next), rest,
                Alloc(h, Chars(Content(h, f.sregs[a])) + Chars(Content(h, f.sregs[b]))))
      else Stuck
    case CallFn(dst, g, args) =>
      if forall a :: a in args ==> a in f.sregs then
        Running(Entry(g, dst, ArgObjs(f, args)), [f.(pc := f.pc + 1)] + rest, h)
      else Stuck
    case StringRetain(a) =>
      if Usable(f, h, a) then Running(f.(pc := f.pc + 1), rest, Recount(h, f.sregs[a], 1)) else Stuck
    case StringRelease(a) =>
      if Usable(f, h, a) then Running(f.(pc := f.pc + 1), rest, Recount(h, f.sregs[a], -1)) else Stuck
    case LoadStr(dst, x) =>
      if x in f.svars then Running(SetS(f, dst, f.svars[x]), rest, h) else Stuck
    case StoreStr(x, a) =>
      if a in f.sregs then Running(f.(svars := f.svars[x := f.sregs[a]], pc := f.pc + 1), rest, h)
      else Stuck
    case StoreArg(x, k) =>
      if k < |f.args| then Running(f.(svars := f.svars[x := f.args[k]], pc := f.pc + 1), rest, h)
      else Stuck
    case LoadInt(dst, x) =>
      if x in f.ivars then Running(SetI(f, dst, f.ivars[x]), rest, h) else Stuck
    case StoreInt(x, v) =>
      if Defined(f, v) then Running(f.(ivars := f.ivars[x := IntOf(f, v)], pc := f.pc + 1), rest, h)
      else Stuck
    case IntArith(dst, op, v, w) =>
      if Defined(f, v) && Defined(f, w) then
        Running(SetI(f, dst, ArithVal(op, IntOf(f, v), IntOf(f, w))), rest, h)
      else Stuck
    case IntCmp(dst, op, v, w) =>
      if Defined(f, v) && Defined(f, w) then
        Running(SetI(f, dst, BoolInt(CmpVal(op, IntOf(f, v), IntOf(f, w)))), rest, h)
      else Stuck
    case StringEquals(dst, a, b) =>
      if Usable(f, h, a) && Usable(f, h, b) then
        Running(SetI(f, dst, BoolInt(Content(h, f.sregs[a]) == Content(h, f.sregs[b]))), rest, h)
      else Stuck
    case NotBool(dst, v) =>
      if Defined(f, v) then Running(SetI(f, dst, BoolInt(IntOf(f, v) == 0)), rest, h) else Stuck
    case Phi(dst, c, b0, v, b1) =>
      if f.prev == b0 then Running(SetI(f, dst, c), rest, h)
      else if f.prev == b1 && Defined(f, v) then Running(SetI(f, dst, IntOf(f, v)), rest, h)
      else Stuck
    case Br(b) => Running(Jump(f, b), rest, h)
    case CondBr(v, b, c) =>
      if Defined(f, v) then Running(Jump(f, if IntOf(f, v) != 0 then b else c), rest, h) else Stuck
    case Ret(a) =>
      if Usable(f, h, a) then PopFrame(rest, f.dst, f.sregs[a], h) else Stuck
    case RetNull => PopFrame(rest, f.dst, 0, h)
  }

  function Step(code: Code, st: State): State {
    if !st.Running? then st
    else
      var f := st.top;
      if f.fn < |code| && f.bb < |code[f.fn]| && f.pc < |code[f.fn][f.bb]| then
        Effect(code[f.fn][f.bb][f.pc], f, st.rest, st.heap)
      else Stuck
  }

  function Steps(code: Code, st: State, k: nat): State
    decreases k
  {
    if k == 0 then st else Steps(code, Step(code, st), k - 1)
  }

  /** Runs compose. */
  lemma {:induction false} StepsAdd(code: Code, st: State, j: nat, k: nat)
    ensures Steps(code, st, j + k) == Steps(code, Steps(code, st, j), k)
    decreases j
  {
    if j > 0 { StepsAdd(code, Step(code, st), j - 1, k); }
  }

  /** A state that has stopped stays as it is. */
  lemma {:induction false} StoppedStays(code: Code, st: State, k: nat)
    requires !st.Running?
    ensures Steps(code, st, k) == st
  {
    if k > 0 { StoppedStays(code, st, k - 1); }
  }
}
