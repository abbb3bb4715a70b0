/**
 The source fragment that the ownership and control-flow proofs are about, and what its
 programs mean.

 Two kinds of value occur: refcounted strings and 32-bit integers. The three expression
 datatypes keep them apart, so every expression here is well typed by construction. A `Var`
 stands for one `VariableDefinition` of the compiler: `own` is its ownership qualifier.
 */
module Source {
  datatype Var = Var(id: nat, own: bool)

  /** String-valued expressions. */
  datatype SExpr =
    | Lit(text: string)
    | SVar(x: Var)
    | Concat(left: SExpr, right: SExpr)
    | Call(f: nat, args: seq<SExpr>)

  datatype ArithOp = Add | Sub | Mul
  datatype CmpOp = Lt | Gt | Le | Ge | Eq | Ne

  /** Integer-valued expressions; they never create a temporary. */
  datatype IExpr =
    | IntLit(n: int)
    | IVar(ix: Var)
    | Arith(aop: ArithOp, il: IExpr, ir: IExpr)

  /** Conditions. */
  datatype BExpr =
    | Truthy(e: IExpr)
    | Cmp(cop: CmpOp, cl: IExpr, cr: IExpr)
    | StrCmp(equal: bool, sl: SExpr, sr: SExpr)  // `==` and `!=`
    | Logic(isAnd: bool, bl: BExpr, br: BExpr)   // `&&` and `||`

  /** Statements. Bodies are braced blocks; an absent `else` is the empty block. */
  datatype Stmt =
    | DeclStr(x: Var, init: SExpr)
    | DeclEmpty(x: Var)
    | DeclInt(ix: Var, iinit: IExpr)
    | AssignStr(x: Var, rhs: SExpr)
    | AssignInt(ix: Var, irhs: IExpr)
    | Eval(e: SExpr)
    | Return(e: SExpr)
    | Break
    | Continue
    | Block(body: seq<Stmt>)
    | If(cond: BExpr, thn: seq<Stmt>, els: seq<Stmt>)
    | While(cond: BExpr, body: seq<Stmt>)
    | ForRange(ix: Var, lo: IExpr, hi: IExpr, body: seq<Stmt>)
    | Forever(body: seq<Stmt>)

  datatype Fun = Fun(params: seq<Var>, body: seq<Stmt>)
  type Program = seq<Fun>

  // ---- Values ----

  /** A function that falls off its end yields the null pointer, hence `Null`. */
  datatype SVal = Null | Text(s: string)

  function Chars(v: SVal): string {
    if v.Null? then "" else v.s
  }

  /** Two's-complement wrap-around of a 32-bit integer. */
  function Wrap(n: int): int {
    (n + 0x8000_0000) % 0x1_0000_0000 - 0x8000_0000
  }

  function ArithVal(op: ArithOp, a: int, b: int): int {
    match op
    case Add => Wrap(a + b)
    case Sub => Wrap(a - b)
    case Mul => Wrap(a * b)
  }

  predicate CmpVal(op: CmpOp, a: int, b: int) {
    match op
    case Lt => a < b
    case Gt => a > b
    case Le => a <= b
    case Ge => a >= b
    case Eq => a == b
    case Ne => a != b
  }

  // ---- Meaning ----

  datatype Env = Env(strs: map<Var, SVal>, ints: map<Var, int>)

  /** Evaluation is indexed by a fuel `n`; `Timeout` means that `n` was not enough. */
  datatype Out<T> = Timeout | Val(v: T)

  datatype Outcome =
    | TimedOut
    | Normal(env: Env)
    | Brk(env: Env)
    | Cont(env: Env)
    | Ret(v: SVal)

  function EvalI(e: IExpr, env: Env): int {
    match e
    case IntLit(n) => n
    case IVar(x) => if x in env.ints then env.ints[x] else 0
    case Arith(op, l, r) => ArithVal(op, EvalI(l, env), EvalI(r, env))
  }

  function EvalS(p: Program, e: SExpr, env: Env, n: nat): Out<SVal>
    decreases n, 1, e
  {
    match e
    case Lit(t) => Val(Text(t))
    case SVar(x) => Val(if x in env.strs then env.strs[x] else Null)
    case Concat(l, r) =>
      (match EvalS(p, l, env, n)
       case Timeout => Timeout
       case Val(a) =>
         match EvalS(p, r, env, n)
         case Timeout => Timeout
         case Val(b) => Val(Text(Chars(a) + Chars(b))))
    case Call(f, args) =>
      match EvalArgs(p, args, env, n)
      case Timeout => Timeout
      case Val(vs) => Invoke(p, f, vs, n)
  }

  function EvalArgs(p: Program, es: seq<SExpr>, env: Env, n: nat): (r: Out<seq<SVal>>)
    ensures r.Val? ==> |r.v| == |es|
    decreases n, 1, es
  {
    if es == [] then Val([])
    else
      match EvalArgs(p, es[..|es| - 1], env, n)
      case Timeout => Timeout
      case Val(vs) =>
        match EvalS(p, es[|es| - 1], env, n)
        case Timeout => Timeout
        case Val(v) => Val(vs + [v])
  }

  /** One call: a fresh environment, and the null string when the body falls off its end. */
  function Invoke(p: Program, f: nat, vs: seq<SVal>, n: nat): Out<SVal>
    decreases n, 0
  {
    if n == 0 || f >= |p| || |p[f].params| != |vs| then Timeout
    else
      match ExecBlock(p, p[f].body, Env(ParamEnv(p[f].params, vs), map[]), n - 1)
      case TimedOut => Timeout
      case Ret(v) => Val(v)
      case _ => Val(Null)
  }

  function ParamEnv(xs: seq<Var>, vs: seq<SVal>): map<Var, SVal>
    requires |xs| == |vs|
  {
    if xs == [] then map[]
    else ParamEnv(xs[..|xs| - 1], vs[..|vs| - 1])[xs[|xs| - 1] := vs[|vs| - 1]]
  }

  function EvalB(p: Program, e: BExpr, env: Env, n: nat): Out<bool>
    decreases n, 1, e
  {
    match e
    case Truthy(i) => Val(EvalI(i, env) != 0)
    case Cmp(op, l, r) => Val(CmpVal(op, EvalI(l, env), EvalI(r, env)))
    case StrCmp(equal, l, r) =>
      (match EvalS(p, l, env, n)
       case Timeout => Timeout
       case Val(a) =>
         match EvalS(p, r, env, n)
         case Timeout => Timeout
         case Val(b) => Val((a == b) == equal))
    case Logic(isAnd, l, r) =>
      match EvalB(p, l, env, n)
      case Timeout => Timeout
      case Val(a) => if a == isAnd then EvalB(p, r, env, n) else Val(a)
  }

  function Exec(p: Program, s: Stmt, env: Env, n: nat): Outcome
    decreases n, 1, s
  {
    match s
    case DeclStr(x, e) => SetStr(env, x, EvalS(p, e, env, n))
    case AssignStr(x, e) => SetStr(env, x, EvalS(p, e, env, n))
    case DeclEmpty(_) => Normal(env)
    case DeclInt(x, e) => Normal(env.(ints := env.ints[x := EvalI(e, env)]))
    case AssignInt(x, e) => Normal(env.(ints := env.ints[x := EvalI(e, env)]))
    case Eval(e) => if EvalS(p, e, env, n).Timeout? then TimedOut else Normal(env)
    case Return(e) =>
      (match EvalS(p, e, env, n)
       case Timeout => TimedOut
       case Val(v) => Ret(v))
    case Break => Brk(env)
    case Continue => Cont(env)
    case Block(body) => ExecBlock(p, body, env, n)
    case If(c, thn, els) =>
      (match EvalB(p, c, env, n)
       case Timeout => TimedOut
       case Val(b) => if b then ExecBlock(p, thn, env, n) else ExecBlock(p, els, env, n))
    case While(c, body) =>
      if n == 0 then TimedOut
      else
        (match EvalB(p, c, env, n)
         case Timeout => TimedOut
         case Val(b) =>
           if !b then Normal(env)
           else
             match ExecBlock(p, body, env, n)
             case Normal(env1) => Exec(p, s, env1, n - 1)
             case Cont(env1) => Exec(p, s, env1, n - 1)
             case Brk(env1) => Normal(env1)
             case o => o)
    case ForRange(x, lo, hi, body) =>
      ExecRange(p, x, EvalI(hi, env), body, env.(ints := env.ints[x := EvalI(lo, env)]), n)
    case Forever(body) =>
      if n == 0 then TimedOut
      else
        match ExecBlock(p, body, env, n)
        case Normal(env1) => Exec(p, s, env1, n - 1)
        case Cont(env1) => Exec(p, s, env1, n - 1)
        case Brk(env1) => Normal(env1)
        case o => o
  }

  function SetStr(env: Env, x: Var, v: Out<SVal>): Outcome {
    if v.Timeout? then TimedOut else Normal(env.(strs := env.strs[x := v.v]))
  }

  /** The rounds of a range loop: the bound is fixed, the counter is an ordinary variable. */
  function ExecRange(p: Program, x: Var, hi: int, body: seq<Stmt>, env: Env, n: nat): Outcome
    decreases n, 1, body, 1
  {
    if n == 0 then TimedOut
    else if EvalI(IVar(x), env) >= hi then Normal(env)
    else
      match ExecBlock(p, body, env, n)
      case Normal(env1) => ExecRange(p, x, hi, body, Bump(env1, x), n - 1)
      case Cont(env1) => ExecRange(p, x, hi, body, Bump(env1, x), n - 1)
      case Brk(env1) => Normal(env1)
      case o => o
  }

  function Bump(env: Env, x: Var): Env {
    env.(ints := env.ints[x := Wrap(EvalI(IVar(x), env) + 1)])
  }

  function ExecBlock(p: Program, ss: seq<Stmt>, env: Env, n: nat): Outcome
    decreases n, 1, ss, 0
  {
    if ss == [] then Normal(env)
    else
      match Exec(p, ss[0], env, n)
      case Normal(env1) => ExecBlock(p, ss[1..], env1, n)
      case o => o
  }
}
