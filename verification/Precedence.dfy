/**
 Precedence climbing. The grammar is given declaratively, as trees that are correctly
 bracketed; the parser is shown to find exactly those trees, so every token sequence has at
 most one reading, and printing a tree with as few parentheses as possible reads back.
 */
module Precedence {
  datatype BinOp =
    | Pipe | Range | LOr | LAnd | BitOr | BitXor | BitAnd | Equal | NotEqual
    | Less | Greater | LessEq | GreaterEq | ShiftL | ShiftR | Plus | Minus | Times | Divide | Modulo

  datatype UnOp = Negate | Not | Complement | AwaitTask

  /**
   Tokens as the parser tells them apart. The scanner's code for `..` is 33, the character
   code of `!`, so both are `Op(Range)` here; what that does to a program is said at the end.
   */
  datatype Token =
    | Const(n: nat) | Name(n: nat) | Op(op: BinOp) | Tilde | AwaitWord
    | LParen | RParen | LBracket | RBracket | Dot | Comma | Question | Other(n: nat)

  /** How tightly a binary operator binds; `|>` is looked for wherever `..` is. */
  function Prec(op: BinOp): (p: nat)
    ensures p <= 10
  {
    match op
    case Pipe => 0
    case Range => 0
    case LOr => 1
    case LAnd => 2
    case BitOr => 3
    case BitXor => 4
    case BitAnd => 5
    case Equal => 6
    case NotEqual => 6
    case Less => 7
    case Greater => 7
    case LessEq => 7
    case GreaterEq => 7
    case ShiftL => 8
    case ShiftR => 8
    case Plus => 9
    case Minus => 9
    case Times => 10
    case Divide => 10
    case Modulo => 10
  }

  /** What a right operand has to bind at least as tightly as; after `|>` it is a primary. */
  function RightPrec(op: BinOp): (p: nat)
    ensures p <= 11
  {
    if op.Pipe? then 11 else Prec(op) + 1
  }

  /** The precedence of a token, or -1 if it is not a binary operator. */
  function TokenPrec(t: Token): int {
    if t.Op? then Prec(t.op) else -1
  }

  // ---- Trees ----

  /** Concrete syntax: expression trees that still show their parentheses. */
  datatype Tree =
    | Constant(n: nat)
    | Variable(n: nat)
    | QueryField(n: nat)
    | Paren(inner: Tree)
    | Array(elems: seq<Tree>)
    | Unary(un: UnOp, operand: Tree)
    | Binary(bin: BinOp, left: Tree, right: Tree)
    | Field(target: Tree, name: nat)
    | Method(target: Tree, name: nat, args: seq<Tree>)
    | Index(target: Tree, index: Tree)
    | Try(target: Tree)

  function UnToken(u: UnOp): Token {
    match u
    case Negate => Op(Minus)
    case Not => Op(Range)
    case Complement => Tilde
    case AwaitTask => AwaitWord
  }

  /** The tokens of a tree, in order. */
  function Yield(t: Tree): (ts: seq<Token>)
    ensures ts != []
    decreases t
  {
    match t
    case Constant(n) => [Const(n)]
    case Variable(n) => [Name(n)]
    case QueryField(n) => [Dot, Name(n)]
    case Paren(e) => [LParen] + Yield(e) + [RParen]
    case Array(es) => [LBracket] + YieldAll(es) + [RBracket]
    case Unary(u, e) => [UnToken(u)] + Yield(e)
    case Binary(op, l, r) => Yield(l) + [Op(op)] + Yield(r)
    case Field(e, f) => Yield(e) + [Dot, Name(f)]
    case Method(e, f, args) => Yield(e) + [Dot, Name(f), LParen] + YieldAll(args) + [RParen]
    case Index(e, i) => Yield(e) + [LBracket] + Yield(i) + [RBracket]
    case Try(e) => Yield(e) + [Question]
  }

  function YieldAll(es: seq<Tree>): seq<Token>
    decreases es
  {
    if es == [] then []
    else if |es| == 1 then Yield(es[0])
    else Yield(es[0]) + [Comma] + YieldAll(es[1..])
  }

  /** What may follow a tree as its operator: after a pipeline that is any of them. */
  function Root(t: Tree): nat {
    if t.Binary? then (if t.bin.Pipe? then 10 else Prec(t.bin)) else if t.Unary? then 11 else 12
  }

  /** There is a pipeline at the left end, outside parentheses. */
  predicate Loose(t: Tree)
    decreases t
  {
    t.Binary? && (t.bin.Pipe? || Loose(t.left))
  }

  /** How tightly a tree binds: prefix operators 11, everything closed or postfix 12. */
  function Level(t: Tree): nat {
    if Loose(t) then 0 else Root(t)
  }

  /**
   Right operands bind tighter than their operator, left operands at least as tightly;
   only a pipeline is a left operand of any operator.
   */
  predicate Bracketed(t: Tree)
    decreases t
  {
    match t
    case Constant(_) => true
    case Variable(_) => true
    case QueryField(_) => true
    case Paren(e) => Bracketed(e)
    case Array(es) => AllBracketed(es)
    case Unary(_, e) => Bracketed(e) && Level(e) >= 11
    case Binary(op, l, r) => Bracketed(l) && Bracketed(r) && Root(l) >= Prec(op) && Level(r) >= RightPrec(op)
    case Field(e, _) => Bracketed(e) && Level(e) == 12
    case Method(e, _, args) => Bracketed(e) && Level(e) == 12 && AllBracketed(args)
    case Index(e, i) => Bracketed(e) && Level(e) == 12 && Bracketed(i)
    case Try(e) => Bracketed(e) && Level(e) == 12
  }

  predicate AllBracketed(es: seq<Tree>)
    decreases es
  {
    es != [] ==> Bracketed(es[0]) && AllBracketed(es[1..])
  }

  // ---- The parser as a function on the remaining tokens ----

  /** `Nothing`: no expression starts here; `Failed`: a syntax error. */
  datatype Outcome<T> = Done(value: T, rest: seq<Token>) | Nothing | Failed

  /** After a required operand, nothing is an error. */
  function Required<T>(o: Outcome<T>): Outcome<T> {
    if o.Nothing? then Failed else o
  }

  function Primary(ts: seq<Token>): (r: Outcome<Tree>)
    ensures r.Done? ==> |r.rest| < |ts|
    decreases |ts|, 1
  {
    if ts == [] then Nothing
    else
      match ts[0]
      case Op(Minus) => Prefixed(Negate, ts)
      case Op(Range) => Prefixed(Not, ts)
      case Tilde => Prefixed(Complement, ts)
      case AwaitWord => Prefixed(AwaitTask, ts)
      case Dot => if |ts| > 1 && ts[1].Name? then Postfix(QueryField(ts[1].n), ts[2..]) else Failed
      case Const(n) => Postfix(Constant(n), ts[1..])
      case Name(n) => Postfix(Variable(n), ts[1..])
      case LParen =>
        (match Required(Expr(ts[1..], 0))
         case Done(e, rest) =>
           if rest != [] && rest[0] == RParen then Postfix(Paren(e), rest[1..]) else Failed
         case o => o)
      case LBracket =>
        (match List(ts[1..], RBracket)
         case Done(es, rest) => Postfix(Array(es), rest)
         case _ => Failed)
      case _ => Nothing
  }

  function Prefixed(u: UnOp, ts: seq<Token>): (r: Outcome<Tree>)
    requires ts != []
    ensures r.Done? ==> |r.rest| < |ts|
    decreases |ts|, 0
  {
    match Required(Primary(ts[1..]))
    case Done(e, rest) => Done(Unary(u, e), rest)
    case o => o
  }

  /** Field accesses, method calls, indexing and `?` after `e`. */
  function Postfix(e: Tree, ts: seq<Token>): (r: Outcome<Tree>)
    ensures r.Done? ==> |r.rest| <= |ts|
    decreases |ts|, 2
  {
    if ts == [] then Done(e, ts)
    else if ts[0] == Dot then
      if |ts| < 2 || !ts[1].Name? then Failed
      else if |ts| > 2 && ts[2] == LParen then
        match List(ts[3..], RParen)
        case Done(args, rest) => Postfix(Method(e, ts[1].n, args), rest)
        case _ => Failed
      else Postfix(Field(e, ts[1].n), ts[2..])
    else if ts[0] == LBracket then
      match Required(Expr(ts[1..], 0))
      case Done(i, rest) =>
        if rest != [] && rest[0] == RBracket then Postfix(Index(e, i), rest[1..]) else Failed
      case o => o
    else if ts[0] == Question then Postfix(Try(e), ts[1..])
    else Done(e, ts)
  }

  /** A possibly empty, comma-separated list up to and including `close`. */
  function List(ts: seq<Token>, close: Token): (r: Outcome<seq<Tree>>)
    ensures r.Done? ==> |r.rest| < |ts|
    decreases |ts|, 4
  {
    if ts != [] && ts[0] == close then Done([], ts[1..]) else Items(ts, close)
  }

  function Items(ts: seq<Token>, close: Token): (r: Outcome<seq<Tree>>)
    ensures r.Done? ==> |r.rest| < |ts| && r.value != []
    decreases |ts|, 3
  {
    match Required(Expr(ts, 0))
    case Done(e, rest) =>
      if rest == [] then Failed
      else if rest[0] == Comma then
        match Items(rest[1..], close)
        case Done(es, rest2) => Done([e] + es, rest2)
        case _ => Failed
      else if rest[0] == close then Done([e], rest[1..])
      else Failed
    case _ => Failed
  }

  /** An expression whose operators all bind at least as tightly as `minPrec`. */
  function Expr(ts: seq<Token>, minPrec: nat): (r: Outcome<Tree>)
    ensures r.Done? ==> |r.rest| < |ts|
    decreases |ts|, 2
  {
    match Primary(ts)
    case Done(e, rest) => Climb(e, rest, minPrec)
    case o => o
  }

  /** Extend `left` by operators, each with a right operand that binds tighter. */
  function Climb(left: Tree, ts: seq<Token>, minPrec: nat): (r: Outcome<Tree>)
    ensures r.Done? ==> |r.rest| <= |ts|
    decreases |ts|, 2
  {
    if ts == [] || TokenPrec(ts[0]) < minPrec then Done(left, ts)
    else
      match Required(Expr(ts[1..], RightPrec(ts[0].op)))
      case Done(right, rest) => Climb(Binary(ts[0].op, left, right), rest, minPrec)
      case o => o
  }

  // ---- Soundness: what is found is correctly bracketed and is what was read ----

  /** The last thing in the tree is a field name, which a `(` would turn into a method call. */
  predicate EndsInField(t: Tree)
    decreases t
  {
    t.Field? || (t.Unary? && EndsInField(t.operand)) || (t.Binary? && EndsInField(t.right))
  }

  /** What follows does not belong to the last operand of `t`. */
  predicate Ended(t: Tree, ts: seq<Token>) {
    && (ts != [] ==> ts[0] != Dot && ts[0] != LBracket && ts[0] != Question)
    && (EndsInField(t) ==> ts == [] || ts[0] != LParen)
  }

  /** No operator of at least precedence `p` follows. */
  predicate Stops(ts: seq<Token>, p: nat) {
    ts != [] ==> TokenPrec(ts[0]) < p
  }

  lemma ItemsCons(e: Tree, es: seq<Tree>)
    requires es != []
    ensures YieldAll([e] + es) == Yield(e) + [Comma] + YieldAll(es)
    ensures AllBracketed([e] + es) == (Bracketed(e) && AllBracketed(es))
  {
    hide Yield, Bracketed;
    assert ([e] + es)[1..] == es;
  }

  lemma ItemsOne(e: Tree)
    ensures YieldAll([e]) == Yield(e) && AllBracketed([e]) == Bracketed(e)
  {
    hide Yield, Bracketed;
  }

  // Where the tokens of a construct lie in the input.

  lemma Around(open: seq<Token>, mid: seq<Token>, close: seq<Token>, ts: seq<Token>, rest: seq<Token>)
    requires |open| == 1 && |close| == 1 && ts != [] && ts[0] == open[0] && rest != [] && rest[0] == close[0]
    requires ts[1..] == mid + rest
    ensures ts == open + mid + close + rest[1..]
  {
    assert ts == open + (mid + rest);
    assert rest == close + rest[1..];
  }

  lemma YieldField(e: Tree, f: nat, ts: seq<Token>)
    requires |ts| >= 2 && ts[0] == Dot && ts[1] == Name(f)
    ensures Yield(e) + ts == Yield(Field(e, f)) + ts[2..]
  {
    assert ts == [Dot, Name(f)] + ts[2..];
  }

  lemma YieldMethod(e: Tree, f: nat, args: seq<Tree>, ts: seq<Token>, rest: seq<Token>)
    requires |ts| > 2 && ts[0] == Dot && ts[1] == Name(f) && ts[2] == LParen
    requires ts[3..] == YieldAll(args) + [RParen] + rest
    ensures Yield(e) + ts == Yield(Method(e, f, args)) + rest
  {
    hide YieldAll;
    assert ts == [Dot, Name(f), LParen] + (YieldAll(args) + [RParen] + rest);
  }

  lemma YieldIndex(e: Tree, i: Tree, ts: seq<Token>, rest: seq<Token>)
    requires ts != [] && ts[0] == LBracket && ts[1..] == Yield(i) + rest && rest != [] && rest[0] == RBracket
    ensures Yield(e) + ts == Yield(Index(e, i)) + rest[1..]
  {
    Around([LBracket], Yield(i), [RBracket], ts, rest);
  }

  lemma YieldTry(e: Tree, ts: seq<Token>)
    requires ts != [] && ts[0] == Question
    ensures Yield(e) + ts == Yield(Try(e)) + ts[1..]
  {
  }

  lemma YieldBinary(l: Tree, op: BinOp, r: Tree, ts: seq<Token>, rest: seq<Token>)
    requires ts != [] && ts[0] == Op(op) && ts[1..] == Yield(r) + rest
    ensures Yield(l) + ts == Yield(Binary(op, l, r)) + rest
  {
    assert ts == [Op(op)] + (Yield(r) + rest);
  }

  lemma {:induction false} PrimarySound(ts: seq<Token>)
    requires Primary(ts).Done?
    ensures var Done(t, rest) := Primary(ts);
      ts == Yield(t) + rest && Bracketed(t) && Level(t) >= 11 && Ended(t, rest)
    decreases |ts|, 1
  {
    hide Postfix, Expr, List, Climb, Prefixed, YieldAll, AllBracketed;
    match ts[0]
    case Op(Minus) => PrefixedSound(Negate, ts);
    case Op(Range) => PrefixedSound(Not, ts);
    case Tilde => PrefixedSound(Complement, ts);
    case AwaitWord => PrefixedSound(AwaitTask, ts);
    case Dot =>
      PostfixSound(QueryField(ts[1].n), ts[2..]);
      assert ts == [Dot, Name(ts[1].n)] + ts[2..];
    case Const(n) =>
      PostfixSound(Constant(n), ts[1..]);
      assert ts == [Const(n)] + ts[1..];
    case Name(n) =>
      PostfixSound(Variable(n), ts[1..]);
      assert ts == [Name(n)] + ts[1..];
    case LParen => GroupSound(ts);
    case LBracket => ArraySound(ts);
    case _ =>
  }

  lemma {:induction false} GroupSound(ts: seq<Token>)
    requires Primary(ts).Done? && ts[0] == LParen
    ensures var Done(t, rest) := Primary(ts);
      ts == Yield(t) + rest && Bracketed(t) && Level(t) >= 11 && Ended(t, rest)
    decreases |ts|, 0
  {
    hide Postfix, Expr, List, Climb, Prefixed, YieldAll, AllBracketed;
    ExprSound(ts[1..], 0);
    var Done(e, rest) := Expr(ts[1..], 0);
    PostfixSound(Paren(e), rest[1..]);
    Around([LParen], Yield(e), [RParen], ts, rest);
  }

  lemma {:induction false} ArraySound(ts: seq<Token>)
    requires Primary(ts).Done? && ts[0] == LBracket
    ensures var Done(t, rest) := Primary(ts);
      ts == Yield(t) + rest && Bracketed(t) && Level(t) >= 11 && Ended(t, rest)
    decreases |ts|, 0
  {
    hide Postfix, Expr, List, Climb, Prefixed, YieldAll, AllBracketed;
    ListSound(ts[1..], RBracket);
    var Done(es, rest) := List(ts[1..], RBracket);
    PostfixSound(Array(es), rest);
    Around([LBracket], YieldAll(es), [RBracket], ts, [RBracket] + rest);
  }

  lemma {:induction false} PrefixedSound(u: UnOp, ts: seq<Token>)
    requires ts != [] && ts[0] == UnToken(u) && Prefixed(u, ts).Done?
    ensures var Done(t, rest) := Prefixed(u, ts);
      ts == Yield(t) + rest && Bracketed(t) && Level(t) >= 11 && Ended(t, rest)
    decreases |ts|, 0
  {
    PrimarySound(ts[1..]);
  }

  lemma {:induction false} PostfixSound(e: Tree, ts: seq<Token>)
    requires Postfix(e, ts).Done? && Bracketed(e) && Level(e) == 12
    requires e.Field? ==> ts == [] || ts[0] != LParen
    ensures var Done(t, rest) := Postfix(e, ts);
      Yield(e) + ts == Yield(t) + rest && Bracketed(t) && Level(t) == 12 && Ended(t, rest)
    decreases |ts|, 2
  {
    hide Expr, List, Climb, Primary, Yield, YieldAll, AllBracketed;
    if ts == [] {
    } else if ts[0] == Dot {
      if |ts| > 2 && ts[2] == LParen {
        ListSound(ts[3..], RParen);
        var Done(args, rest) := List(ts[3..], RParen);
        PostfixSound(Method(e, ts[1].n, args), rest);
        YieldMethod(e, ts[1].n, args, ts, rest);
      } else {
        PostfixSound(Field(e, ts[1].n), ts[2..]);
        YieldField(e, ts[1].n, ts);
      }
    } else if ts[0] == LBracket {
      ExprSound(ts[1..], 0);
      var Done(i, rest) := Expr(ts[1..], 0);
      PostfixSound(Index(e, i), rest[1..]);
      YieldIndex(e, i, ts, rest);
    } else if ts[0] == Question {
      PostfixSound(Try(e), ts[1..]);
      YieldTry(e, ts);
    }
  }

  lemma {:induction false} ListSound(ts: seq<Token>, close: Token)
    requires List(ts, close).Done?
    ensures var Done(es, rest) := List(ts, close);
      ts == YieldAll(es) + [close] + rest && AllBracketed(es)
    decreases |ts|, 4
  {
    if ts != [] && ts[0] == close {
    } else {
      ItemsSound(ts, close);
    }
  }

  lemma {:induction false} ItemsSound(ts: seq<Token>, close: Token)
    requires Items(ts, close).Done?
    ensures var Done(es, rest) := Items(ts, close);
      ts == YieldAll(es) + [close] + rest && AllBracketed(es)
    decreases |ts|, 3
  {
    hide Expr, Primary, Yield, Bracketed, Ended, YieldAll, AllBracketed, Items;
    ItemsStep(ts, close);
    ExprSound(ts, 0);
    var Done(e, rest) := Expr(ts, 0);
    if rest[0] == Comma {
      ItemsSound(rest[1..], close);
      var Done(es, rest2) := Items(rest[1..], close);
      ItemsCons(e, es);
      Joined(Yield(e), Comma, YieldAll(es), [close], rest2, rest);
    } else {
      ItemsOne(e);
      Joined(Yield(e), close, [], [], rest[1..], rest);
    }
  }

  lemma Joined(a: seq<Token>, x: Token, b: seq<Token>, c: seq<Token>, d: seq<Token>, all: seq<Token>)
    requires all != [] && all[0] == x && all[1..] == b + c + d
    ensures a + all == a + [x] + b + c + d && (b == c == [] ==> a + all == a + [x] + d)
  {
    assert all == [x] + (b + c + d);
  }

  /** A parsed expression is correctly bracketed, is what was consumed, and could not go on. */
  lemma {:induction false} ExprSound(ts: seq<Token>, minPrec: nat)
    requires Expr(ts, minPrec).Done?
    ensures var Done(t, rest) := Expr(ts, minPrec);
      && ts == Yield(t) + rest && Bracketed(t) && (Level(t) >= minPrec || Level(t) >= 11)
      && Ended(t, rest) && Stops(rest, minPrec)
    decreases |ts|, 2
  {
    PrimarySound(ts);
    var Done(e, rest) := Primary(ts);
    ClimbSound(e, rest, minPrec);
  }

  lemma {:induction false} ClimbSound(left: Tree, ts: seq<Token>, minPrec: nat)
    requires Climb(left, ts, minPrec).Done? && Bracketed(left) && Ended(left, ts)
    requires Level(left) >= minPrec || Level(left) >= 11
    requires ts != [] && ts[0].Op? ==> Prec(ts[0].op) <= Root(left)
    ensures var Done(t, rest) := Climb(left, ts, minPrec);
      && Yield(left) + ts == Yield(t) + rest && Bracketed(t) && (Level(t) >= minPrec || Level(t) >= 11)
      && Ended(t, rest) && Stops(rest, minPrec)
    decreases |ts|, 2
  {
    hide Expr, Primary, Yield;
    if ts == [] || TokenPrec(ts[0]) < minPrec {
    } else {
      var op := ts[0].op;
      ExprSound(ts[1..], RightPrec(op));
      var Done(right, rest) := Expr(ts[1..], RightPrec(op));
      YieldBinary(left, op, right, ts, rest);
      ClimbSound(Binary(op, left, right), rest, minPrec);
    }
  }

  // ---- Completeness: every correctly bracketed tree is found ----

  /** Closed and postfix trees: what follows is looked at for more postfix operators. */
  lemma {:induction false} PrimaryFinds(t: Tree, rest: seq<Token>)
    requires Bracketed(t) && Level(t) == 12 && (t.Field? ==> rest == [] || rest[0] != LParen)
    ensures Primary(Yield(t) + rest) == Postfix(t, rest)
    decreases t, 1
  {
    hide Postfix, Expr, List, YieldAll, AllBracketed, Prefixed;
    match t
    case Constant(n) => Behind(Const(n), rest);
    case Variable(n) => Behind(Name(n), rest);
    case QueryField(n) => assert (Yield(t) + rest)[2..] == rest;
    case Paren(e) =>
      ExprFinds(e, [RParen] + rest, 0);
      ParenFinds(e, rest);
    case Array(es) =>
      ListFinds(es, RBracket, rest);
      ArrayFinds(es, rest);
    case _ => PostfixFinds(t, rest);
  }

  lemma Behind(x: Token, rest: seq<Token>)
    ensures ([x] + rest)[1..] == rest
  {
  }

  lemma ParenFinds(e: Tree, rest: seq<Token>)
    requires Expr(Yield(e) + ([RParen] + rest), 0) == Done(e, [RParen] + rest)
    ensures Primary(Yield(Paren(e)) + rest) == Postfix(Paren(e), rest)
  {
    hide Postfix, Expr, List;
    var more := Yield(e) + ([RParen] + rest);
    assert Yield(Paren(e)) + rest == [LParen] + more;
    hide Yield;
    Behind(LParen, more);
    Behind(RParen, rest);
  }

  lemma ArrayFinds(es: seq<Tree>, rest: seq<Token>)
    requires List(YieldAll(es) + [RBracket] + rest, RBracket) == Done(es, rest)
    ensures Primary(Yield(Array(es)) + rest) == Postfix(Array(es), rest)
  {
    hide Postfix, Expr, List, YieldAll;
    var more := YieldAll(es) + [RBracket] + rest;
    assert Yield(Array(es)) + rest == [LBracket] + more;
    hide Yield;
    Behind(LBracket, more);
  }

  lemma {:induction false} PostfixFinds(t: Tree, rest: seq<Token>)
    requires Bracketed(t) && (t.Field? || t.Method? || t.Index? || t.Try?)
    requires t.Field? ==> rest == [] || rest[0] != LParen
    ensures Primary(Yield(t) + rest) == Postfix(t, rest)
    decreases t, 0
  {
    hide Primary, Expr, List, YieldAll, AllBracketed, Yield;
    match t
    case Field(e, f) =>
      var more := [Dot, Name(f)] + rest;
      PrimaryFinds(e, more);
      YieldField(e, f, more);
      assert more[2..] == rest;
    case Method(e, f, args) =>
      var more := [Dot, Name(f), LParen] + (YieldAll(args) + [RParen] + rest);
      assert more[3..] == YieldAll(args) + [RParen] + rest;
      PrimaryFinds(e, more);
      ListFinds(args, RParen, rest);
      YieldMethod(e, f, args, more, rest);
    case Index(e, i) =>
      var more := [LBracket] + (Yield(i) + ([RBracket] + rest));
      assert more[1..] == Yield(i) + ([RBracket] + rest);
      assert ([RBracket] + rest)[1..] == rest;
      PrimaryFinds(e, more);
      ExprFinds(i, [RBracket] + rest, 0);
      YieldIndex(e, i, more, [RBracket] + rest);
    case Try(e) =>
      var more := [Question] + rest;
      PrimaryFinds(e, more);
      YieldTry(e, more);
      assert more[1..] == rest;
  }

  /** Prefix operators apply to a primary. */
  lemma {:induction false} OperandFinds(t: Tree, rest: seq<Token>)
    requires Bracketed(t) && Level(t) >= 11 && Ended(t, rest)
    ensures Primary(Yield(t) + rest) == Done(t, rest)
    decreases t, 2
  {
    hide Primary, Yield;
    if t.Unary? {
      OperandFinds(t.operand, rest);
      UnaryFinds(t, rest);
    } else {
      PrimaryFinds(t, rest);
    }
  }

  lemma UnaryFinds(t: Tree, rest: seq<Token>)
    requires t.Unary? && Primary(Yield(t.operand) + rest) == Done(t.operand, rest)
    ensures Primary(Yield(t) + rest) == Done(t, rest)
  {
    hide Postfix, Expr, List;
    var more := Yield(t.operand) + rest;
    assert Yield(t) + rest == [UnToken(t.un)] + more;
    assert ([UnToken(t.un)] + more)[1..] == more;
    hide Yield;
  }

  lemma {:induction false} ListFinds(es: seq<Tree>, close: Token, rest: seq<Token>)
    requires AllBracketed(es) && (close == RParen || close == RBracket)
    ensures List(YieldAll(es) + [close] + rest, close) == Done(es, rest)
    decreases es, 1
  {
    var ts := YieldAll(es) + [close] + rest;
    if es == [] {
      assert ts[1..] == rest;
    } else {
      ItemsFind(es, close, rest);
      FirstOf(es[0]);
      assert ts[0] == Yield(es[0])[0];
    }
  }

  /** No expression starts with a closing bracket. */
  lemma {:induction false} FirstOf(t: Tree)
    ensures Yield(t)[0] != RParen && Yield(t)[0] != RBracket
    decreases t
  {
    match t
    case Binary(_, l, _) => FirstOf(l);
    case Field(e, _) => FirstOf(e);
    case Method(e, _, _) => FirstOf(e);
    case Index(e, _) => FirstOf(e);
    case Try(e) => FirstOf(e);
    case _ =>
  }

  lemma {:induction false} ItemsFind(es: seq<Tree>, close: Token, rest: seq<Token>)
    requires es != [] && AllBracketed(es) && (close == RParen || close == RBracket)
    ensures Items(YieldAll(es) + [close] + rest, close) == Done(es, rest)
    decreases es, 0
  {
    hide Expr, Primary, Yield, Bracketed, Items;
    ItemsStep(YieldAll(es) + [close] + rest, close);
    if |es| == 1 {
      hide YieldAll, AllBracketed;
      ItemsOne(es[0]);
      assert [es[0]] == es;
      ExprFinds(es[0], [close] + rest, 0);
      assert Yield(es[0]) + [close] + rest == Yield(es[0]) + ([close] + rest);
      Behind(close, rest);
    } else {
      var tail := YieldAll(es[1..]) + [close] + rest;
      ExprFinds(es[0], [Comma] + tail, 0);
      ItemsFind(es[1..], close, rest);
      hide YieldAll, AllBracketed;
      assert [es[0]] + es[1..] == es;
      ItemsCons(es[0], es[1..]);
      Behind(Comma, tail);
      Joined(Yield(es[0]), Comma, YieldAll(es[1..]), [close], rest, [Comma] + tail);
    }
  }

  /**
   A tree whose operators are wanted is read completely, as long as what follows does not
   bind tighter than its root; then climbing continues from it.
   */
  lemma {:induction false} ClimbFinds(t: Tree, rest: seq<Token>, minPrec: nat)
    requires Bracketed(t) && (Level(t) >= minPrec || Level(t) >= 11) && Ended(t, rest)
    requires Stops(rest, Root(t) + 1)
    ensures Expr(Yield(t) + rest, minPrec) == Climb(t, rest, minPrec)
    decreases t, 3
  {
    hide Primary, Yield, Postfix;
    if t.Binary? {
      var more := [Op(t.bin)] + (Yield(t.right) + rest);
      YieldBinary(t.left, t.bin, t.right, more, rest) by { assert more[1..] == Yield(t.right) + rest; }
      ClimbFinds(t.left, more, minPrec);
      ExprFinds(t.right, rest, RightPrec(t.bin));
      assert more[1..] == Yield(t.right) + rest;
    } else {
      OperandFinds(t, rest);
    }
  }

  /** Every correctly bracketed tree is found when nothing that follows could continue it. */
  lemma {:induction false} ExprFinds(t: Tree, rest: seq<Token>, minPrec: nat)
    requires Bracketed(t) && (Level(t) >= minPrec || Level(t) >= 11)
    requires Ended(t, rest) && Stops(rest, minPrec)
    ensures Expr(Yield(t) + rest, minPrec) == Done(t, rest)
    decreases t, 4
  {
    ClimbFinds(t, rest, minPrec);
  }

  // ---- Main results ----

  /** The parser accepts a token sequence exactly when it starts with a readable expression. */
  lemma ParseIsCorrect(ts: seq<Token>, t: Tree, rest: seq<Token>)
    ensures Expr(ts, 0) == Done(t, rest)
       <==> ts == Yield(t) + rest && Bracketed(t) && Ended(t, rest) && Stops(rest, 0)
  {
    if Expr(ts, 0) == Done(t, rest) {
      ExprSound(ts, 0);
    }
    if ts == Yield(t) + rest && Bracketed(t) && Ended(t, rest) && Stops(rest, 0) {
      ExprFinds(t, rest, 0);
    }
  }

  // ---- Which operator binds tighter ----

  /** The binary operators other than `|>` in layers, from loosest to tightest. */
  const LAYERS: seq<set<BinOp>> :=
    [{Range}, {LOr}, {LAnd}, {BitOr}, {BitXor}, {BitAnd}, {Equal, NotEqual}, {Less, Greater, LessEq, GreaterEq},
     {ShiftL, ShiftR}, {Plus, Minus}, {Times, Divide, Modulo}]

  /** `op2` stands in a later layer than `op`. */
  predicate Tighter(op2: BinOp, op: BinOp) {
    exists i, j :: 0 <= i < j < |LAYERS| && op in LAYERS[i] && op2 in LAYERS[j]
  }

  /** Every operator stands in one layer, that of its precedence. */
  lemma LayerOf(op: BinOp, i: nat)
    requires !op.Pipe?
    ensures |LAYERS| == 11 && (i < 11 ==> (op in LAYERS[i] <==> i == Prec(op)))
  {
  }

  lemma TighterIsHigher(op2: BinOp, op: BinOp)
    requires !op.Pipe? && !op2.Pipe?
    ensures Tighter(op2, op) <==> Prec(op2) > Prec(op)
  {
    hide Prec, LAYERS;
    if Tighter(op2, op) {
      var i: nat, j: nat :| i < j < |LAYERS| && op in LAYERS[i] && op2 in LAYERS[j];
      LayerOf(op, i);
      LayerOf(op2, j);
    }
    LayerOf(op, Prec(op));
    LayerOf(op2, Prec(op2));
  }

  /** An operand is closed: a name, a constant, something in brackets, a postfix or a prefix expression. */
  predicate Operand(t: Tree) {
    Bracketed(t) && !t.Binary?
  }

  /**
   Of two operators the one in the tighter layer takes the operand between them; in the same
   layer it is the first one. This holds for all operands and all operators but `|>`.
   */
  lemma LayersDecide(a: Tree, op: BinOp, b: Tree, op2: BinOp, c: Tree)
    requires !op.Pipe? && !op2.Pipe? && Operand(a) && Operand(b) && Operand(c)
    ensures Expr(Yield(a) + [Op(op)] + Yield(b) + [Op(op2)] + Yield(c), 0)
         == Done(if Tighter(op2, op) then Binary(op, a, Binary(op2, b, c)) else Binary(op2, Binary(op, a, b), c), [])
  {
    hide Prec, Yield, Tighter, Bracketed, Expr, Level, Root, RightPrec, Loose;
    TighterIsHigher(op2, op);
    var ts := Yield(a) + [Op(op)] + Yield(b) + [Op(op2)] + Yield(c);
    var t := if Tighter(op2, op) then Binary(op, a, Binary(op2, b, c)) else Binary(op2, Binary(op, a, b), c);
    YieldTwo(a, op, b, op2, c);
    assert ts == Yield(t) + [];
    if Tighter(op2, op) {
      PairOf(b, op2, c);
      PairOf(a, op, Binary(op2, b, c));
    } else {
      PairOf(a, op, b);
      PairOf(Binary(op, a, b), op2, c);
    }
    ParseIsCorrect(ts, t, []);
  }

  /** Operands, or a pair of them that binds tightly enough, make a correctly bracketed pair. */
  lemma PairOf(l: Tree, op: BinOp, r: Tree)
    requires !op.Pipe? && Bracketed(l) && Bracketed(r)
    requires !l.Binary? || (!l.bin.Pipe? && Prec(l.bin) >= Prec(op))
    requires !r.Binary? || (!r.bin.Pipe? && Prec(r.bin) > Prec(op) && !r.left.Binary?)
    ensures Bracketed(Binary(op, l, r))
  {
    hide Prec;
    if r.Binary? { assert !Loose(r.left) && !Loose(r); } else { assert !Loose(r); }
    assert Root(l) >= Prec(op) && Level(r) >= RightPrec(op);
  }

  lemma YieldTwo(a: Tree, op: BinOp, b: Tree, op2: BinOp, c: Tree)
    ensures Yield(Binary(op, a, Binary(op2, b, c))) == Yield(a) + [Op(op)] + Yield(b) + [Op(op2)] + Yield(c)
    ensures Yield(Binary(op2, Binary(op, a, b), c)) == Yield(a) + [Op(op)] + Yield(b) + [Op(op2)] + Yield(c)
  {
    YieldOne(a, op, Binary(op2, b, c));
    YieldOne(b, op2, c);
    YieldOne(Binary(op, a, b), op2, c);
    YieldOne(a, op, b);
    hide Yield;
  }

  lemma YieldOne(a: Tree, op: BinOp, b: Tree)
    ensures Yield(Binary(op, a, b)) == Yield(a) + [Op(op)] + Yield(b)
  {
  }

  /** No token sequence has two readings. */
  lemma Unambiguous(t: Tree, u: Tree)
    requires Bracketed(t) && Bracketed(u) && Yield(t) == Yield(u)
    ensures t == u
  {
    assert Yield(t) + [] == Yield(t) && Yield(u) + [] == Yield(u);
    ExprFinds(t, [], 0);
    ExprFinds(u, [], 0);
  }

  // ---- Printing ----

  /** The abstract syntax: parentheses dropped, as the parser's nodes do not keep them. */
  function Strip(t: Tree): Tree
    decreases t
  {
    match t
    case Constant(_) => t
    case Variable(_) => t
    case QueryField(_) => t
    case Paren(e) => Strip(e)
    case Array(es) => Array(StripAll(es))
    case Unary(u, e) => Unary(u, Strip(e))
    case Binary(op, l, r) => Binary(op, Strip(l), Strip(r))
    case Field(e, f) => Field(Strip(e), f)
    case Method(e, f, args) => Method(Strip(e), f, StripAll(args))
    case Index(e, i) => Index(Strip(e), Strip(i))
    case Try(e) => Try(Strip(e))
  }

  function StripAll(es: seq<Tree>): (r: seq<Tree>)
    ensures |r| == |es|
    decreases es
  {
    if es == [] then [] else [Strip(es[0])] + StripAll(es[1..])
  }

  /** Add the parentheses that are needed where level `m` is expected, and no others. */
  function Wrap(t: Tree, m: nat): Tree {
    if Level(t) < m then Paren(t) else t
  }

  /** The same for a left operand. */
  function WrapLeft(t: Tree, p: nat): Tree {
    if Root(t) < p then Paren(t) else t
  }

  function Minimal(t: Tree): Tree
    decreases t
  {
    match t
    case Constant(_) => t
    case Variable(_) => t
    case QueryField(_) => t
    case Paren(e) => Minimal(e)
    case Array(es) => Array(MinimalAll(es))
    case Unary(u, e) => Unary(u, Wrap(Minimal(e), 11))
    case Binary(op, l, r) => Binary(op, WrapLeft(Minimal(l), Prec(op)), Wrap(Minimal(r), RightPrec(op)))
    case Field(e, f) => Field(Wrap(Minimal(e), 12), f)
    case Method(e, f, args) => Method(Wrap(Minimal(e), 12), f, MinimalAll(args))
    case Index(e, i) => Index(Wrap(Minimal(e), 12), Minimal(i))
    case Try(e) => Try(Wrap(Minimal(e), 12))
  }

  function MinimalAll(es: seq<Tree>): (r: seq<Tree>)
    ensures |r| == |es|
    decreases es
  {
    if es == [] then [] else [Minimal(es[0])] + MinimalAll(es[1..])
  }

  lemma WrapIsFine(t: Tree, m: nat)
    requires Bracketed(t) && m <= 12
    ensures Bracketed(Wrap(t, m)) && Level(Wrap(t, m)) >= m && Strip(Wrap(t, m)) == Strip(t)
  {
  }

  lemma WrapLeftIsFine(t: Tree, p: nat)
    requires Bracketed(t) && p <= 12
    ensures Bracketed(WrapLeft(t, p)) && Root(WrapLeft(t, p)) >= p && Strip(WrapLeft(t, p)) == Strip(t)
  {
  }

  lemma {:induction false} MinimalIsFine(t: Tree)
    ensures Bracketed(Minimal(t)) && Strip(Minimal(t)) == Strip(t)
    decreases t
  {
    hide Wrap, WrapLeft, MinimalAll, StripAll, AllBracketed;
    match t
    case Constant(_) =>
    case Variable(_) =>
    case QueryField(_) =>
    case Paren(e) => MinimalIsFine(e);
    case Array(es) => MinimalAllFine(es);
    case Unary(_, e) =>
      MinimalIsFine(e);
      WrapIsFine(Minimal(e), 11);
    case Binary(op, l, r) =>
      MinimalIsFine(l);
      MinimalIsFine(r);
      WrapLeftIsFine(Minimal(l), Prec(op));
      WrapIsFine(Minimal(r), RightPrec(op));
    case Field(e, _) =>
      MinimalIsFine(e);
      WrapIsFine(Minimal(e), 12);
    case Method(e, _, args) =>
      MinimalIsFine(e);
      WrapIsFine(Minimal(e), 12);
      MinimalAllFine(args);
    case Index(e, i) =>
      MinimalIsFine(e);
      WrapIsFine(Minimal(e), 12);
      MinimalIsFine(i);
    case Try(e) =>
      MinimalIsFine(e);
      WrapIsFine(Minimal(e), 12);
  }

  lemma {:induction false} MinimalAllFine(es: seq<Tree>)
    ensures AllBracketed(MinimalAll(es)) && StripAll(MinimalAll(es)) == StripAll(es)
    decreases es
  {
    if es != [] {
      MinimalIsFine(es[0]);
      MinimalAllFine(es[1..]);
    }
  }

  /** Printing with minimal parentheses and parsing gives the abstract tree back. */
  lemma PrintParse(t: Tree, rest: seq<Token>)
    requires Ended(Minimal(t), rest) && Stops(rest, 0)
    ensures Expr(Yield(Minimal(t)) + rest, 0).Done?
    ensures var o := Expr(Yield(Minimal(t)) + rest, 0); Strip(o.value) == Strip(t) && o.rest == rest
  {
    MinimalIsFine(t);
    ExprFinds(Minimal(t), rest, 0);
  }

  // ---- No fewer parentheses would do ----

  lemma {:induction false} MinimalOfStrip(t: Tree)
    ensures Minimal(Strip(t)) == Minimal(t)
    decreases t
  {
    match t
    case Constant(_) =>
    case Variable(_) =>
    case QueryField(_) =>
    case Paren(e) => MinimalOfStrip(e);
    case Array(es) => MinimalOfStripAll(es);
    case Unary(_, e) => MinimalOfStrip(e);
    case Binary(_, l, r) =>
      MinimalOfStrip(l);
      MinimalOfStrip(r);
    case Field(e, _) => MinimalOfStrip(e);
    case Method(e, _, args) =>
      MinimalOfStrip(e);
      MinimalOfStripAll(args);
    case Index(e, i) =>
      MinimalOfStrip(e);
      MinimalOfStrip(i);
    case Try(e) => MinimalOfStrip(e);
  }

  lemma {:induction false} MinimalOfStripAll(es: seq<Tree>)
    ensures MinimalAll(StripAll(es)) == MinimalAll(es)
    decreases es
  {
    if es != [] {
      MinimalOfStrip(es[0]);
      MinimalOfStripAll(es[1..]);
      assert StripAll(es)[1..] == StripAll(es[1..]);
    }
  }

  function Length(t: Tree): nat {
    |Yield(t)|
  }

  /** The minimal form is no longer, and two tokens shorter where it binds less tightly. */
  predicate Shortened(t: Tree) {
    var m := Minimal(t);
    Length(m) + (if Level(m) < Level(t) || Root(m) < Root(t) then 2 else 0) <= Length(t)
  }

  lemma WrapIsShort(e: Tree, m: nat)
    requires Shortened(e) && m <= Level(e)
    ensures Length(Wrap(Minimal(e), m)) <= Length(e)
  {
    hide Minimal;
  }

  lemma WrapLeftIsShort(e: Tree, p: nat)
    requires Shortened(e) && p <= Root(e)
    ensures Length(WrapLeft(Minimal(e), p)) <= Length(e)
    ensures Loose(WrapLeft(Minimal(e), p)) && !Loose(e) && p > 0 ==> Length(WrapLeft(Minimal(e), p)) + 2 <= Length(e)
  {
    hide Minimal;
  }

  lemma {:induction false} MinimalIsShort(t: Tree)
    requires Bracketed(t)
    ensures Shortened(t)
    decreases t
  {
    hide Wrap, WrapLeft;
    match t
    case Constant(_) =>
    case Variable(_) =>
    case QueryField(_) =>
    case Paren(e) => MinimalIsShort(e);
    case Array(es) => MinimalAllShort(es);
    case Unary(_, e) =>
      MinimalIsShort(e);
      WrapIsShort(e, 11);
    case Binary(op, l, r) =>
      MinimalIsShort(l);
      MinimalIsShort(r);
      WrapLeftIsShort(l, Prec(op));
      WrapIsShort(r, RightPrec(op));
    case Field(e, _) =>
      MinimalIsShort(e);
      WrapIsShort(e, 12);
    case Method(e, _, args) =>
      MinimalIsShort(e);
      WrapIsShort(e, 12);
      MinimalAllShort(args);
    case Index(e, i) =>
      MinimalIsShort(e);
      WrapIsShort(e, 12);
      MinimalIsShort(i);
    case Try(e) =>
      MinimalIsShort(e);
      WrapIsShort(e, 12);
  }

  lemma {:induction false} MinimalAllShort(es: seq<Tree>)
    requires AllBracketed(es)
    ensures |YieldAll(MinimalAll(es))| <= |YieldAll(es)|
    decreases es
  {
    if es != [] {
      MinimalIsShort(es[0]);
      MinimalAllShort(es[1..]);
      assert MinimalAll(es)[1..] == MinimalAll(es[1..]);
    }
  }

  /** Any other way to write the same abstract tree needs at least as many tokens. */
  lemma FewestParentheses(t: Tree, other: Tree)
    requires Bracketed(other) && Strip(other) == Strip(t)
    ensures Length(Minimal(t)) <= Length(other)
  {
    MinimalOfStrip(t);
    MinimalOfStrip(other);
    MinimalIsShort(other);
  }

  // ---- A field name before a parenthesis ----

  /**
   `a.f (b)`: the field access alone is correctly bracketed, but the parenthesis makes it a
   method call, so the condition `Ended` cannot be dropped.
   */
  lemma FieldBeforeParenthesis(a: nat, f: nat, b: nat)
    ensures
      var ts := [Name(a), Dot, Name(f), LParen, Name(b), RParen];
      && ts == Yield(Field(Variable(a), f)) + [LParen, Name(b), RParen] && Bracketed(Field(Variable(a), f))
      && Stops([LParen, Name(b), RParen], 0)
      && Expr(ts, 0) == Done(Method(Variable(a), f, [Variable(b)]), [])
  {
    var ts := [Name(a), Dot, Name(f), LParen, Name(b), RParen];
    var t := Method(Variable(a), f, [Variable(b)]);
    assert YieldAll([Variable(b)]) == [Name(b)];
    assert ts == Yield(t) + [];
    assert AllBracketed([Variable(b)]) by { assert [Variable(b)][1..] == [] && AllBracketed([]); }
    ParseIsCorrect(ts, t, []);
  }

  // ---- The pipeline as the loosest operator ----

  /** The documented precedence: `|>` below every other operator, like them left-associative. */
  function DocumentedPrec(op: BinOp): int {
    if op.Pipe? then -1 else Prec(op)
  }

  function DocumentedLevel(t: Tree): int {
    if t.Binary? then DocumentedPrec(t.bin) else if t.Unary? then 11 else 12
  }

  predicate Documented(t: Tree)
    decreases t
  {
    match t
    case Constant(_) => true
    case Variable(_) => true
    case QueryField(_) => true
    case Paren(e) => Documented(e)
    case Array(es) => forall i :: 0 <= i < |es| ==> Documented(es[i])
    case Unary(_, e) => Documented(e) && DocumentedLevel(e) >= 11
    case Binary(op, l, r) =>
      && Documented(l) && Documented(r)
      && DocumentedLevel(l) >= DocumentedPrec(op) && DocumentedLevel(r) > DocumentedPrec(op)
    case Field(e, _) => Documented(e) && DocumentedLevel(e) == 12
    case Method(e, _, args) =>
      Documented(e) && DocumentedLevel(e) == 12 && forall i :: 0 <= i < |args| ==> Documented(args[i])
    case Index(e, i) => Documented(e) && DocumentedLevel(e) == 12 && Documented(i)
    case Try(e) => Documented(e) && DocumentedLevel(e) == 12
  }

  /** No binary operator stands, without parentheses, in what follows a `|>`. */
  predicate Narrow(t: Tree)
    decreases t
  {
    match t
    case Constant(_) => true
    case Variable(_) => true
    case QueryField(_) => true
    case Paren(e) => Narrow(e)
    case Array(es) => forall i :: 0 <= i < |es| ==> Narrow(es[i])
    case Unary(_, e) => Narrow(e)
    case Binary(op, l, r) => Narrow(l) && Narrow(r) && (op.Pipe? ==> !r.Binary?)
    case Field(e, _) => Narrow(e)
    case Method(e, _, args) => Narrow(e) && forall i :: 0 <= i < |args| ==> Narrow(args[i])
    case Index(e, i) => Narrow(e) && Narrow(i)
    case Try(e) => Narrow(e)
  }

  lemma {:induction false} NotLoose(t: Tree)
    requires Documented(t) && DocumentedLevel(t) >= 0
    ensures !Loose(t)
    decreases t
  {
    if t.Binary? { NotLoose(t.left); }
  }

  /** Where the two notions of a correctly bracketed tree agree. */
  lemma {:induction false} NarrowIsBracketed(t: Tree)
    requires Documented(t)
    ensures Bracketed(t) <==> Narrow(t)
    decreases t
  {
    match t
    case Constant(_) =>
    case Variable(_) =>
    case QueryField(_) =>
    case Paren(e) => NarrowIsBracketed(e);
    case Array(es) => NarrowAllBracketed(es);
    case Unary(_, e) => NarrowIsBracketed(e);
    case Binary(op, l, r) =>
      NarrowIsBracketed(l);
      NarrowIsBracketed(r);
      if !op.Pipe? { NotLoose(r); }
    case Field(e, _) => NarrowIsBracketed(e);
    case Method(e, _, args) =>
      NarrowIsBracketed(e);
      NarrowAllBracketed(args);
    case Index(e, i) =>
      NarrowIsBracketed(e);
      NarrowIsBracketed(i);
    case Try(e) => NarrowIsBracketed(e);
  }

  lemma {:induction false} NarrowAllBracketed(es: seq<Tree>)
    requires forall i :: 0 <= i < |es| ==> Documented(es[i])
    ensures AllBracketed(es) <==> forall i :: 0 <= i < |es| ==> Narrow(es[i])
    decreases es
  {
    hide Bracketed, Narrow, Documented;
    if es != [] {
      NarrowIsBracketed(es[0]);
      NarrowAllBracketed(es[1..]);
      assert forall i :: 1 <= i < |es| ==> es[i] == es[1..][i - 1];
      assert forall i :: 0 <= i < |es| - 1 ==> es[1..][i] == es[i + 1];
    }
  }

  /** The parser reads an expression as documented exactly if its pipelines go into primaries. */
  lemma PipesAsDocumented(t: Tree, rest: seq<Token>)
    requires Documented(t) && Ended(t, rest) && Stops(rest, 0)
    ensures Expr(Yield(t) + rest, 0) == Done(t, rest) <==> Narrow(t)
  {
    NarrowIsBracketed(t);
    ParseIsCorrect(Yield(t) + rest, t, rest);
  }

  /** `a |> b + c` is documented to pipe `a` into `b + c`, and is read as `a |> b`, plus `c`. */
  lemma PipeThenPlus(a: nat, b: nat, c: nat)
    ensures
      var meant := Binary(Pipe, Variable(a), Binary(Plus, Variable(b), Variable(c)));
      var read := Binary(Plus, Binary(Pipe, Variable(a), Variable(b)), Variable(c));
      Documented(meant) && Yield(meant) == Yield(read) && Expr(Yield(meant), 0) == Done(read, [])
  {
    hide Expr;
    var sum := Binary(Plus, Variable(b), Variable(c));
    var pipe := Binary(Pipe, Variable(a), Variable(b));
    var meant := Binary(Pipe, Variable(a), sum);
    var read := Binary(Plus, pipe, Variable(c));
    assert Documented(sum) && Bracketed(pipe);
    assert Yield(sum) == [Name(b), Op(Plus), Name(c)] && Yield(pipe) == [Name(a), Op(Pipe), Name(b)];
    assert Yield(meant) == [Name(a), Op(Pipe), Name(b), Op(Plus), Name(c)] == Yield(read);
    assert Yield(meant) == Yield(read) + [] && Bracketed(read);
    ParseIsCorrect(Yield(meant), read, []);
  }

  // ---- `!` and `..` ----

  /** A token as it is written: `!`, or any other one, `Plain(Op(Range))` being `..`. */
  datatype Written = Bang | Plain(token: Token)

  function Code(x: Written): Token {
    if x.Bang? then Op(Range) else x.token
  }

  function Codes(xs: seq<Written>): (ts: seq<Token>)
    ensures |ts| == |xs| && forall i :: 0 <= i < |xs| ==> ts[i] == Code(xs[i])
  {
    seq(|xs|, i requires 0 <= i < |xs| => Code(xs[i]))
  }

  /** How a tree is written: negation as `!`, ranges as `..`. */
  function Spell(t: Tree): seq<Written>
    decreases t
  {
    match t
    case Constant(n) => [Plain(Const(n))]
    case Variable(n) => [Plain(Name(n))]
    case QueryField(n) => [Plain(Dot), Plain(Name(n))]
    case Paren(e) => [Plain(LParen)] + Spell(e) + [Plain(RParen)]
    case Array(es) => [Plain(LBracket)] + SpellAll(es) + [Plain(RBracket)]
    case Unary(u, e) => [if u.Not? then Bang else Plain(UnToken(u))] + Spell(e)
    case Binary(op, l, r) => Spell(l) + [Plain(Op(op))] + Spell(r)
    case Field(e, f) => Spell(e) + [Plain(Dot), Plain(Name(f))]
    case Method(e, f, args) =>
      Spell(e) + [Plain(Dot), Plain(Name(f)), Plain(LParen)] + SpellAll(args) + [Plain(RParen)]
    case Index(e, i) => Spell(e) + [Plain(LBracket)] + Spell(i) + [Plain(RBracket)]
    case Try(e) => Spell(e) + [Plain(Question)]
  }

  function SpellAll(es: seq<Tree>): seq<Written>
    decreases es
  {
    if es == [] then []
    else if |es| == 1 then Spell(es[0])
    else Spell(es[0]) + [Plain(Comma)] + SpellAll(es[1..])
  }

  /** An operand is complete after this token, so an operator may follow. */
  predicate EndsOperand(t: Token) {
    t.Const? || t.Name? || t == RParen || t == RBracket || t == Question
  }

  /** Whether an operand is expected after `xs`, when it was expected before (or not). */
  function Expecting(xs: seq<Written>, before: bool): bool {
    if xs == [] then before else !EndsOperand(Code(xs[|xs| - 1]))
  }

  /** `!` only where an operand is expected, `..` only where it is not. */
  predicate Placed(xs: seq<Written>, expecting: bool)
    decreases |xs|
  {
    xs != [] ==>
      && (xs[0].Bang? ==> expecting)
      && (xs[0] == Plain(Op(Range)) ==> !expecting)
      && Placed(xs[1..], !EndsOperand(Code(xs[0])))
  }

  lemma {:induction false} PlacedAppend(a: seq<Written>, b: seq<Written>, expecting: bool)
    ensures Placed(a + b, expecting) <==> Placed(a, expecting) && Placed(b, Expecting(a, expecting))
    decreases |a|
  {
    if a == [] {
      assert a + b == b;
    } else {
      assert (a + b)[1..] == a[1..] + b;
      PlacedAppend(a[1..], b, !EndsOperand(Code(a[0])));
    }
  }

  /** One way to write a sequence of codes is placed correctly at most. */
  lemma {:induction false} PlacedOnce(a: seq<Written>, b: seq<Written>, expecting: bool)
    requires Codes(a) == Codes(b) && Placed(a, expecting) && Placed(b, expecting)
    ensures a == b
    decreases |a|
  {
    assert |Codes(a)| == |a| == |b|;
    if a != [] {
      assert Codes(a)[0] == Codes(b)[0];
      assert Codes(a[1..]) == Codes(a)[1..] && Codes(b[1..]) == Codes(b)[1..];
      PlacedOnce(a[1..], b[1..], !EndsOperand(Code(a[0])));
      assert a == [a[0]] + a[1..] && b == [b[0]] + b[1..];
    }
  }

  lemma CodesAppend(a: seq<Written>, b: seq<Written>)
    ensures Codes(a + b) == Codes(a) + Codes(b)
  {
  }

  /** A tail of tokens other than `!` and `..`. */
  predicate Ordinary(xs: seq<Written>) {
    forall i :: 0 <= i < |xs| ==> !xs[i].Bang? && xs[i] != Plain(Op(Range))
  }

  lemma {:induction false} OrdinaryIsPlaced(xs: seq<Written>, expecting: bool)
    requires Ordinary(xs)
    ensures Placed(xs, expecting)
    decreases |xs|
  {
    if xs != [] { OrdinaryIsPlaced(xs[1..], !EndsOperand(Code(xs[0]))); }
  }

  /** A spelling has the tree's codes, is placed correctly, and completes an operand. */
  predicate SpellsFine(xs: seq<Written>, ts: seq<Token>) {
    Codes(xs) == ts && Placed(xs, true) && xs != [] && !Expecting(xs, true)
  }

  /** Ordinary tokens, then a fine spelling. */
  lemma FineAfter(front: seq<Written>, xs: seq<Written>, ts: seq<Token>, before: bool)
    requires SpellsFine(xs, ts) && Placed(front, before) && Expecting(front, before)
    ensures Codes(front + xs) == Codes(front) + ts && Placed(front + xs, before) && !Expecting(front + xs, before)
  {
    PlacedAppend(front, xs, before);
    CodesAppend(front, xs);
  }

  /** A fine spelling, then ordinary tokens that complete an operand. */
  lemma FineBefore(xs: seq<Written>, ts: seq<Token>, back: seq<Written>)
    requires SpellsFine(xs, ts) && Ordinary(back) && back != [] && EndsOperand(Code(back[|back| - 1]))
    ensures SpellsFine(xs + back, ts + Codes(back))
  {
    PlacedAppend(xs, back, true);
    OrdinaryIsPlaced(back, false);
    CodesAppend(xs, back);
  }

  /** `xs`, a connecting token after which an operand is expected, and `ys`. */
  lemma FineBetween(xs: seq<Written>, ts: seq<Token>, mid: seq<Written>, ys: seq<Written>, us: seq<Token>)
    requires SpellsFine(xs, ts) && SpellsFine(ys, us)
    requires mid != [] && Placed(mid, false) && Expecting(mid, false)
    ensures SpellsFine(xs + mid + ys, ts + Codes(mid) + us)
  {
    PlacedAppend(xs, mid, true);
    PlacedAppend(xs + mid, ys, true);
    CodesAppend(xs, mid);
    CodesAppend(xs + mid, ys);
  }

  lemma {:induction false} SpellIsFine(t: Tree)
    ensures SpellsFine(Spell(t), Yield(t))
    decreases t
  {
    hide SpellsFine, Placed, Codes;
    match t
    case Constant(n) => OneIsFine([Plain(Const(n))]);
    case Variable(n) => OneIsFine([Plain(Name(n))]);
    case QueryField(n) => OneIsFine([Plain(Dot), Plain(Name(n))]);
    case Paren(e) =>
      SpellIsFine(e);
      Enclosed(Plain(LParen), Spell(e), Yield(e), Plain(RParen));
    case Array(es) =>
      SpellAllIsFine(es);
      if es == [] {
        OneIsFine([Plain(LBracket)] + [] + [Plain(RBracket)]);
        assert [LBracket] + [] + [RBracket] == [LBracket, RBracket];
      } else {
        Enclosed(Plain(LBracket), SpellAll(es), YieldAll(es), Plain(RBracket));
      }
    case Unary(u, e) =>
      SpellIsFine(e);
      PrefixIsFine(u, Spell(e), Yield(e));
    case Binary(op, l, r) =>
      SpellIsFine(l);
      SpellIsFine(r);
      OperatorIsFine(op);
      FineBetween(Spell(l), Yield(l), [Plain(Op(op))], Spell(r), Yield(r));
    case Field(e, f) =>
      SpellIsFine(e);
      AsCodes([Plain(Dot), Plain(Name(f))]);
      FineBefore(Spell(e), Yield(e), [Plain(Dot), Plain(Name(f))]);
    case Method(e, f, args) =>
      SpellIsFine(e);
      SpellAllIsFine(args);
      CallIsFine(Spell(e), Yield(e), f, args);
    case Index(e, i) =>
      SpellIsFine(e);
      SpellIsFine(i);
      AsCodes([Plain(LBracket)]);
      AsCodes([Plain(RBracket)]);
      OrdinaryIsPlaced([Plain(LBracket)], false);
      FineBetween(Spell(e), Yield(e), [Plain(LBracket)], Spell(i), Yield(i));
      FineBefore(Spell(e) + [Plain(LBracket)] + Spell(i), Yield(e) + [LBracket] + Yield(i), [Plain(RBracket)]);
    case Try(e) =>
      SpellIsFine(e);
      AsCodes([Plain(Question)]);
      FineBefore(Spell(e), Yield(e), [Plain(Question)]);
  }

  lemma AsCodes(xs: seq<Written>)
    requires Ordinary(xs) && 1 <= |xs| <= 3
    ensures Codes(xs) == if |xs| == 1 then [Code(xs[0])] else if |xs| == 2 then [Code(xs[0]), Code(xs[1])]
                         else [Code(xs[0]), Code(xs[1]), Code(xs[2])]
  {
  }

  lemma OneIsFine(xs: seq<Written>)
    requires Ordinary(xs) && 1 <= |xs| <= 2 && EndsOperand(Code(xs[|xs| - 1]))
    ensures SpellsFine(xs, if |xs| == 1 then [Code(xs[0])] else [Code(xs[0]), Code(xs[1])])
  {
    AsCodes(xs);
    OrdinaryIsPlaced(xs, true);
  }

  lemma Enclosed(open: Written, xs: seq<Written>, ts: seq<Token>, close: Written)
    requires SpellsFine(xs, ts) && Ordinary([open, close]) && !EndsOperand(Code(open)) && EndsOperand(Code(close))
    ensures SpellsFine([open] + xs + [close], [Code(open)] + ts + [Code(close)])
  {
    assert [open, close][0] == open && [open, close][1] == close;
    OrdinaryIsPlaced([open], true);
    FineAfter([open], xs, ts, true);
    FineBefore([open] + xs, [Code(open)] + ts, [close]);
  }

  lemma PrefixIsFine(u: UnOp, xs: seq<Written>, ts: seq<Token>)
    requires SpellsFine(xs, ts)
    ensures SpellsFine([if u.Not? then Bang else Plain(UnToken(u))] + xs, [UnToken(u)] + ts)
  {
    hide SpellsFine;
    var front := [if u.Not? then Bang else Plain(UnToken(u))];
    assert Codes(front) == [UnToken(u)];
    assert Placed(front, true) && Expecting(front, true) by { assert front[1..] == []; }
    FineFirst(front, xs, ts);
  }

  lemma FineFirst(front: seq<Written>, xs: seq<Written>, ts: seq<Token>)
    requires SpellsFine(xs, ts) && Placed(front, true) && Expecting(front, true)
    ensures SpellsFine(front + xs, Codes(front) + ts)
  {
    hide Placed;
    FineAfter(front, xs, ts, true);
  }

  lemma OperatorIsFine(op: BinOp)
    ensures Placed([Plain(Op(op))], false) && Expecting([Plain(Op(op))], false) && Codes([Plain(Op(op))]) == [Op(op)]
  {
    assert [Plain(Op(op))][1..] == [];
  }

  lemma CallIsFine(xs: seq<Written>, ts: seq<Token>, f: nat, args: seq<Tree>)
    requires SpellsFine(xs, ts) && (args != [] ==> SpellsFine(SpellAll(args), YieldAll(args)))
    ensures SpellsFine(xs + [Plain(Dot), Plain(Name(f)), Plain(LParen)] + SpellAll(args) + [Plain(RParen)],
                       ts + [Dot, Name(f), LParen] + YieldAll(args) + [RParen])
  {
    hide SpellsFine, Placed, Codes;
    var open := [Plain(Dot), Plain(Name(f)), Plain(LParen)];
    AsCodes(open);
    AsCodes([Plain(RParen)]);
    if args == [] {
      var back := open + [Plain(RParen)];
      CodesAppend(open, [Plain(RParen)]);
      FineBefore(xs, ts, back);
      assert xs + back == xs + open + [] + [Plain(RParen)];
      assert ts + ([Dot, Name(f), LParen] + [RParen]) == ts + [Dot, Name(f), LParen] + [] + [RParen];
    } else {
      OrdinaryIsPlaced(open, false);
      FineBetween(xs, ts, open, SpellAll(args), YieldAll(args));
      FineBefore(xs + open + SpellAll(args), ts + [Dot, Name(f), LParen] + YieldAll(args), [Plain(RParen)]);
    }
  }

  lemma {:induction false} SpellAllIsFine(es: seq<Tree>)
    ensures es != [] ==> SpellsFine(SpellAll(es), YieldAll(es))
    decreases es
  {
    hide SpellsFine, Placed, Codes;
    if es != [] {
      SpellIsFine(es[0]);
      if |es| > 1 {
        SpellAllIsFine(es[1..]);
        AsCodes([Plain(Comma)]);
        OrdinaryIsPlaced([Plain(Comma)], false);
        FineBetween(Spell(es[0]), Yield(es[0]), [Plain(Comma)], SpellAll(es[1..]), YieldAll(es[1..]));
      }
    }
  }

  /** What the first n written tokens mean: `!` is a prefix and no operator. */
  predicate Means(xs: seq<Written>, t: Tree, n: nat) {
    && n <= |xs| && xs[..n] == Spell(t) && Bracketed(t) && Ended(t, Codes(xs[n..]))
    && (n < |xs| ==> xs[n].Bang? || TokenPrec(Code(xs[n])) < 0)
  }

  /** What the parser makes of them. */
  predicate Reads(xs: seq<Written>, t: Tree, n: nat) {
    n == |Yield(t)| <= |xs| && Expr(Codes(xs), 0) == Done(t, Codes(xs[n..]))
  }

  /** The tokens of the expression and the next one. */
  function Seen(xs: seq<Written>, n: nat): seq<Written> {
    if n < |xs| then xs[..n + 1] else xs
  }

  /**
   The parser reads an expression as it is meant if `!` stands only where an operand is expected
   and `..` only where an operator is, up to the token after it. Where they do not, it never does.
   */
  lemma ReadsAsMeant(xs: seq<Written>, t: Tree, n: nat)
    ensures Placed(Seen(xs, n), true) ==> (Reads(xs, t, n) <==> Means(xs, t, n))
    ensures !Placed(Seen(xs, n), true) ==> !(Reads(xs, t, n) && Means(xs, t, n))
  {
    if n <= |xs| {
      hide Placed, Expr, Yield, Spell, Bracketed;
      SpellIsFine(t);
      assert xs == xs[..n] + xs[n..];
      CodesAppend(xs[..n], xs[n..]);
      ParseIsCorrect(Codes(xs), t, Codes(xs[n..]));
      NextPlaced(xs, n);
      if Placed(xs[..n], true) && Codes(xs[..n]) == Yield(t) { PlacedOnce(xs[..n], Spell(t), true); }
      if Reads(xs, t, n) {
        assert Codes(xs)[..n] == (Yield(t) + Codes(xs[n..]))[..n] == Yield(t);
        assert Codes(xs)[..n] == Codes(xs[..n]);
      }
    }
  }

  lemma NextPlaced(xs: seq<Written>, n: nat)
    requires n <= |xs|
    ensures Placed(Seen(xs, n), true) <==>
      && Placed(xs[..n], true)
      && (n < |xs| ==> var e := Expecting(xs[..n], true);
            (xs[n].Bang? ==> e) && (xs[n] == Plain(Op(Range)) ==> !e))
  {
    if n < |xs| {
      assert xs[..n + 1] == xs[..n] + [xs[n]];
      PlacedAppend(xs[..n], [xs[n]], true);
      assert [xs[n]][1..] == [];
    } else {
      assert xs[..n] == xs;
    }
  }

  /** `a ! b`: the expression meant is `a`, the one read is the range `a .. b`. */
  lemma BangReadsAsRange(a: nat, b: nat)
    ensures
      var xs := [Plain(Name(a)), Bang, Plain(Name(b))];
      Reads(xs, Binary(Range, Variable(a), Variable(b)), 3) && Means(xs, Variable(a), 1) && !Placed(Seen(xs, 1), true)
  {
    hide Expr;
    var xs := [Plain(Name(a)), Bang, Plain(Name(b))];
    var t := Binary(Range, Variable(a), Variable(b));
    assert Yield(t) == [Name(a), Op(Range), Name(b)] && xs[3..] == [];
    assert Codes(xs) == Yield(t) + Codes(xs[3..]);
    ParseIsCorrect(Codes(xs), t, Codes(xs[3..]));
    assert Bracketed(t) && Codes(xs[3..]) == [];
    assert Reads(xs, t, 3);
    assert xs[..1] == Spell(Variable(a));
    assert Codes(xs[1..]) == [Op(Range), Name(b)];
    assert Means(xs, Variable(a), 1);
    NextPlaced(xs, 1);
  }

  /** `.. b` is no expression, and is read as `!b`. */
  lemma RangeReadsAsBang(b: nat)
    ensures
      var xs := [Plain(Op(Range)), Plain(Name(b))];
      Reads(xs, Unary(Not, Variable(b)), 2) && !Placed(Seen(xs, 2), true) && forall t, n :: !Means(xs, t, n)
  {
    hide Expr;
    var xs := [Plain(Op(Range)), Plain(Name(b))];
    var u := Unary(Not, Variable(b));
    assert Yield(u) == [Op(Range), Name(b)] && xs[2..] == [];
    assert Codes(xs) == Yield(u) + Codes(xs[2..]);
    ParseIsCorrect(Codes(xs), u, Codes(xs[2..]));
    assert Bracketed(u) && Codes(xs[2..]) == [];
    assert Reads(xs, u, 2);
    assert !Placed(Seen(xs, 2), true);
    forall t, n: nat ensures !Means(xs, t, n) {
      SpellIsFine(t);
      assert 0 < n <= |xs| ==> xs[..n][0] == xs[0];
    }
  }

  // ---- The parser itself ----

  /** What the parser returns: a node without parentheses, the null pointer, or an exception. */
  datatype Result<T> = Parsed(value: T) | Null | SyntaxError

  class Parser {
    const tokens: seq<Token>
    var pos: nat

    constructor (ts: seq<Token>)
      ensures tokens == ts && pos == 0
    {
      tokens := ts;
      pos := 0;
    }

    predicate Valid()
      reads this
    {
      pos <= |tokens|
    }

    function Remaining(): seq<Token>
      requires Valid()
      reads this
    {
      tokens[pos..]
    }

    predicate Sees(t: Token)
      requires Valid()
      reads this
    {
      pos < |tokens| && tokens[pos] == t
    }

    /** The result is the abstract form of `tree`, found where the grammar says. */
    predicate Found(r: Result<Tree>, tree: Tree, expected: Outcome<Tree>)
      requires Valid()
      reads this
    {
      match expected
      case Done(t, rest) => tree == t && r == Parsed(Strip(t)) && Remaining() == rest
      case Nothing => r.Null?
      case Failed => r.SyntaxError?
    }

    method ParsePrimary() returns (r: Result<Tree>, ghost tree: Tree)
      requires Valid()
      modifies `pos
      ensures Valid() && old(pos) <= pos && (r.Parsed? ==> old(pos) < pos)
      ensures Found(r, tree, Primary(old(Remaining())))
      decreases |tokens| - pos, 1
    {
      hide Expr, Climb, Postfix, List, Prefixed, StripAll;
      tree := Constant(0);
      if pos == |tokens| { return Null, tree; }
      match tokens[pos]
      case Op(Minus) => r, tree := ParsePrefix(Negate);
      case Op(Range) => r, tree := ParsePrefix(Not);
      case Tilde => r, tree := ParsePrefix(Complement);
      case AwaitWord => r, tree := ParsePrefix(AwaitTask);
      case Dot =>
        if pos + 1 == |tokens| || !tokens[pos + 1].Name? { return SyntaxError, tree; }
        var name := tokens[pos + 1].n;
        pos := pos + 2;
        r, tree := ParsePostfix(QueryField(name), QueryField(name));
      case Const(n) =>
        pos := pos + 1;
        r, tree := ParsePostfix(Constant(n), Constant(n));
      case Name(n) =>
        pos := pos + 1;
        r, tree := ParsePostfix(Variable(n), Variable(n));
      case LParen =>
        r, tree := ParseGroup();
        if r.Parsed? { r, tree := ParsePostfix(r.value, tree); }
      case LBracket =>
        pos := pos + 1;
        var elems, trees := ParseArguments(RBracket);
        if !elems.Parsed? { return SyntaxError, tree; }
        r, tree := ParsePostfix(Array(elems.value), Array(trees));
      case _ => r := Null;
    }

    /** A parenthesized expression. */
    method ParseGroup() returns (r: Result<Tree>, ghost tree: Tree)
      requires Valid() && Sees(LParen)
      modifies `pos
      ensures Valid() && old(pos) < pos
      ensures Continued(r, tree, Primary(old(Remaining())))
      decreases |tokens| - pos, 0
    {
      hide Expr, Climb, Postfix, List, Prefixed;
      pos := pos + 1;
      r, tree := ParseExpr(0);
      if !r.Parsed? || !Sees(RParen) { return SyntaxError, tree; }
      pos := pos + 1;
      tree := Paren(tree);
    }

    method ParsePrefix(u: UnOp) returns (r: Result<Tree>, ghost tree: Tree)
      requires Valid() && Sees(UnToken(u))
      modifies `pos
      ensures Valid() && old(pos) <= pos && (r.Parsed? ==> old(pos) < pos)
      ensures Found(r, tree, Prefixed(u, old(Remaining())))
      decreases |tokens| - pos, 0
    {
      hide Primary;
      pos := pos + 1;
      r, tree := ParsePrimary();
      if r.Parsed? {
        r, tree := Parsed(Unary(u, r.value)), Unary(u, tree);
      } else {
        r := SyntaxError;
      }
    }

    /** Field accesses, method calls, indexing and `?` after `e`. */
    method ParsePostfix(e: Tree, ghost start: Tree) returns (r: Result<Tree>, ghost tree: Tree)
      requires Valid() && e == Strip(start)
      modifies `pos
      ensures Valid() && old(pos) <= pos
      ensures Found(r, tree, Postfix(start, old(Remaining())))
      decreases |tokens| - pos, 2
    {
      hide Expr, Climb, Primary, List, Postfix, Strip;
      r, tree := Parsed(e), start;
      while Sees(Dot) || Sees(LBracket) || Sees(Question)
        invariant Valid() && old(pos) <= pos && r == Parsed(Strip(tree))
        invariant Postfix(tree, Remaining()) == Postfix(start, old(Remaining()))
        decreases |tokens| - pos
      {
        PostfixStep(tree, Remaining());
        if Sees(Dot) {
          r, tree := ParseMember(r.value, tree);
        } else if Sees(LBracket) {
          r, tree := ParseIndex(r.value, tree);
        } else {
          pos := pos + 1;
          r, tree := Parsed(Try(r.value)), Try(tree);
        }
        if !r.Parsed? { return; }
      }
      PostfixStep(tree, Remaining());
    }

    /** One postfix operator was read, or there is a syntax error. */
    predicate Continued(r: Result<Tree>, tree: Tree, expected: Outcome<Tree>)
      requires Valid()
      reads this
    {
      if r.Parsed? then r == Parsed(Strip(tree)) && Postfix(tree, Remaining()) == expected
      else r.SyntaxError? && expected.Failed?
    }

    method ParseMember(e: Tree, ghost start: Tree) returns (r: Result<Tree>, ghost tree: Tree)
      requires Valid() && e == Strip(start) && Sees(Dot)
      modifies `pos
      ensures Valid() && old(pos) < pos + (if r.Parsed? then 0 else 1)
      ensures Continued(r, tree, Postfix(start, old(Remaining())))
      decreases |tokens| - pos, 1
    {
      hide Expr, Climb, Primary, List, Postfix, Strip, StripAll;
      tree := start;
      MemberStep(start, Remaining());
      if pos + 1 == |tokens| || !tokens[pos + 1].Name? { return SyntaxError, tree; }
      var name := tokens[pos + 1].n;
      if pos + 2 < |tokens| && tokens[pos + 2] == LParen {
        pos := pos + 3;
        var args, trees := ParseArguments(RParen);
        if !args.Parsed? { return SyntaxError, tree; }
        r, tree := Parsed(Method(e, name, args.value)), Method(tree, name, trees);
      } else {
        pos := pos + 2;
        r, tree := Parsed(Field(e, name)), Field(tree, name);
      }
    }

    method ParseIndex(e: Tree, ghost start: Tree) returns (r: Result<Tree>, ghost tree: Tree)
      requires Valid() && e == Strip(start) && Sees(LBracket)
      modifies `pos
      ensures Valid() && old(pos) < pos
      ensures Continued(r, tree, Postfix(start, old(Remaining())))
      decreases |tokens| - pos, 1
    {
      hide Expr, Climb, Primary, List, Postfix, Strip;
      tree := start;
      IndexStep(start, Remaining());
      pos := pos + 1;
      var index, indexTree := ParseExpr(0);
      if !index.Parsed? || !Sees(RBracket) { return SyntaxError, tree; }
      pos := pos + 1;
      r, tree := Parsed(Index(e, index.value)), Index(tree, indexTree);
    }

    /** Comma-separated expressions up to and including `close`. */
    method ParseArguments(close: Token) returns (r: Result<seq<Tree>>, ghost trees: seq<Tree>)
      requires Valid()
      modifies `pos
      ensures Valid() && old(pos) <= pos && (r.Parsed? ==> old(pos) < pos)
      ensures
        match List(old(Remaining()), close)
        case Done(es, rest) => trees == es && r == Parsed(StripAll(es)) && Remaining() == rest
        case _ => r.SyntaxError?
      decreases |tokens| - pos, 4
    {
      hide Expr, Climb, Primary, StripAll, Items, Strip, List;
      var items := [];
      trees := [];
      StripNone();
      ListStep(Remaining(), close);
      if Sees(close) {
        pos := pos + 1;
        return Parsed(items), trees;
      }
      PrependNone(Items(Remaining(), close));
      while true
        invariant Valid() && old(pos) <= pos && items == StripAll(trees)
        invariant List(old(Remaining()), close) == Prepend(trees, Items(Remaining(), close))
        decreases |tokens| - pos
      {
        ItemsStep(Remaining(), close);
        var item, tree := ParseExpr(0);
        if !item.Parsed? || pos == |tokens| { return SyntaxError, trees; }
        StripPush(trees, tree);
        ghost var before := trees;
        items, trees := items + [item.value], trees + [tree];
        pos := pos + 1;
        if tokens[pos - 1] != Comma {
          if tokens[pos - 1] != close { return SyntaxError, trees; }
          return Parsed(items), trees;
        }
        PrependOne(before, tree, Items(Remaining(), close));
      }
    }

    method ParseExpr(minPrec: nat) returns (r: Result<Tree>, ghost tree: Tree)
      requires Valid()
      modifies `pos
      ensures Valid() && old(pos) <= pos && (r.Parsed? ==> old(pos) < pos)
      ensures Found(r, tree, Expr(old(Remaining()), minPrec))
      decreases |tokens| - pos, 3
    {
      hide Primary, Expr, Climb, Strip;
      ExprStep(Remaining(), minPrec);
      r, tree := ParsePrimary();
      if !r.Parsed? { return; }
      var left := r.value;
      while true
        invariant Valid() && old(pos) < pos && left == Strip(tree)
        invariant Climb(tree, Remaining(), minPrec) == Expr(old(Remaining()), minPrec)
        decreases |tokens| - pos
      {
        var prec := if pos < |tokens| then TokenPrec(tokens[pos]) else -1;
        ClimbStep(tree, Remaining(), minPrec);
        if prec < 0 || prec < minPrec { return Parsed(left), tree; }
        var op := tokens[pos].op;
        pos := pos + 1;
        var right: Result<Tree>;
        ghost var rightTree: Tree;
        if op.Pipe? {
          PrimaryOnly(Remaining());
          right, rightTree := ParsePrimary();
        } else {
          right, rightTree := ParseExpr(prec + 1);
        }
        if !right.Parsed? { return SyntaxError, tree; }
        StripBinary(op, tree, rightTree);
        left, tree := Binary(op, left, right.value), Binary(op, tree, rightTree);
      }
    }
  }

  lemma ExprStep(ts: seq<Token>, minPrec: nat)
    ensures var o := Primary(ts); Expr(ts, minPrec) == if o.Done? then Climb(o.value, o.rest, minPrec) else o
  {
    hide Primary, Climb;
  }

  lemma ClimbStep(left: Tree, ts: seq<Token>, minPrec: nat)
    ensures ts == [] || TokenPrec(ts[0]) < minPrec ==> Climb(left, ts, minPrec) == Done(left, ts)
    ensures ts != [] && TokenPrec(ts[0]) >= minPrec ==>
              var o := Expr(ts[1..], RightPrec(ts[0].op));
              Climb(left, ts, minPrec)
              == if o.Done? then Climb(Binary(ts[0].op, left, o.value), o.rest, minPrec) else Failed
  {
    hide Expr;
  }

  /** An operator binds less tightly than prefixes, so this is how a primary alone is read. */
  lemma PrimaryOnly(ts: seq<Token>)
    ensures Expr(ts, 11) == Primary(ts)
  {
    hide Primary;
  }

  lemma StripBinary(op: BinOp, l: Tree, r: Tree)
    ensures Strip(Binary(op, l, r)) == Binary(op, Strip(l), Strip(r))
  {
  }

  lemma {:induction false} StripPush(es: seq<Tree>, e: Tree)
    ensures StripAll(es + [e]) == StripAll(es) + [Strip(e)]
    decreases es
  {
    if es != [] {
      StripPush(es[1..], e);
      assert (es + [e])[1..] == es[1..] + [e];
    } else {
      assert es + [e] == [e];
    }
  }

  function Prepend(es: seq<Tree>, o: Outcome<seq<Tree>>): Outcome<seq<Tree>> {
    if o.Done? then Done(es + o.value, o.rest) else o
  }

  lemma PrependNone(o: Outcome<seq<Tree>>)
    ensures Prepend([], o) == o
  {
    if o.Done? { assert [] + o.value == o.value; }
  }

  lemma PrependOne(es: seq<Tree>, e: Tree, o: Outcome<seq<Tree>>)
    ensures Prepend(es + [e], o) == Prepend(es, Prepend([e], o))
  {
    if o.Done? { assert es + [e] + o.value == es + ([e] + o.value); }
  }

  lemma ItemsStep(ts: seq<Token>, close: Token)
    ensures
      var o := Expr(ts, 0);
      Items(ts, close)
      == if !o.Done? || o.rest == [] then Failed
         else if o.rest[0] == Comma then Prepend([o.value], Items(o.rest[1..], close))
         else if o.rest[0] == close then Done([o.value], o.rest[1..])
         else Failed
  {
    hide Expr;
  }

  lemma MemberStep(e: Tree, ts: seq<Token>)
    requires ts != [] && ts[0] == Dot
    ensures |ts| < 2 || !ts[1].Name? ==> Postfix(e, ts).Failed?
    ensures |ts| >= 2 && ts[1].Name? && !(|ts| > 2 && ts[2] == LParen) ==>
              Postfix(e, ts) == Postfix(Field(e, ts[1].n), ts[2..]) && Strip(Field(e, ts[1].n)) == Field(Strip(e), ts[1].n)
    ensures |ts| > 2 && ts[1].Name? && ts[2] == LParen ==>
              var o := List(ts[3..], RParen);
              if !o.Done? then Postfix(e, ts).Failed?
              else
                && Postfix(e, ts) == Postfix(Method(e, ts[1].n, o.value), o.rest)
                && Strip(Method(e, ts[1].n, o.value)) == Method(Strip(e), ts[1].n, StripAll(o.value))
  {
    hide Expr, List;
  }

  lemma IndexStep(e: Tree, ts: seq<Token>)
    requires ts != [] && ts[0] == LBracket
    ensures
      var o := Expr(ts[1..], 0);
      if !o.Done? || o.rest == [] || o.rest[0] != RBracket then Postfix(e, ts).Failed?
      else Postfix(e, ts) == Postfix(Index(e, o.value), o.rest[1..])
    ensures forall i :: Strip(Index(e, i)) == Index(Strip(e), Strip(i))
  {
    hide Expr, List;
  }

  lemma PostfixStep(e: Tree, ts: seq<Token>)
    ensures ts == [] || (ts[0] != Dot && ts[0] != LBracket && ts[0] != Question) ==> Postfix(e, ts) == Done(e, ts)
    ensures ts != [] && ts[0] == Question ==> Postfix(e, ts) == Postfix(Try(e), ts[1..]) && Strip(Try(e)) == Try(Strip(e))
  {
    hide Expr, List;
  }

  lemma ListStep(ts: seq<Token>, close: Token)
    ensures List(ts, close) == if ts != [] && ts[0] == close then Done([], ts[1..]) else Items(ts, close)
  {
    hide Items;
  }

  lemma StripNone()
    ensures StripAll([]) == []
  {
  }
}
