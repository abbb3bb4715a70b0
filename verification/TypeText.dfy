/**
 Types as text: the printer of interface files, the part of the scanner that reads types
 back, and the type parser, which splits a `>>` that closes two argument lists at once.
 */
module TypeText {
  import opened Lexing

  datatype Type = Type(name: string, params: seq<Type>)

  // ---- Printing ----

  function Print(t: Type): string
    decreases t
  {
    if t.params == [] then t.name else t.name + "<" + PrintAll(t.params) + ">"
  }

  function PrintAll(ts: seq<Type>): string
    decreases ts
  {
    if ts == [] then ""
    else if |ts| == 1 then Print(ts[0])
    else Print(ts[0]) + ", " + PrintAll(ts[1..])
  }

  // ---- Scanning ----

  predicate IsAlpha(c: char) {
    'a' <= c <= 'z' || 'A' <= c <= 'Z' || c == '_'
  }

  predicate IsAlphaNum(c: char) {
    IsAlpha(c) || '0' <= c <= '9'
  }

  const BUILTINS := {"byte", "char", "double", "float", "int", "long", "short", "string"}

  const MODIFIERS := {"const", "extern", "signed", "unsigned", "var"}

  const KEYWORDS := {
    "assert", "async", "await", "break", "continue", "cstring", "carray", "chan", "delete", "ensures", "enum", "else",
    "false", "for", "fn", "import", "insert", "init", "if", "impl", "in", "match", "own", "on", "pub", "protocol",
    "return", "requires", "struct", "static", "shared", "spawn", "sync", "self", "query", "test", "true", "table",
    "update", "while", "wait_all", "wait", "_"}

  function WordKind(w: string): (k: Kind)
    ensures k != EndOfFile
  {
    if w in BUILTINS then Builtin
    else if w in MODIFIERS then Modifier
    else if w == "bool" then Bool
    else if w == "void" then Void
    else if w in KEYWORDS then Keyword
    else Word
  }

  /** Words are of ASCII letters, digits and underscores, and do not start with a digit. */
  lemma WordCharacters(c: char)
    ensures
      var n := c as int;
      && (IsAlpha(c) <==> 97 <= n <= 122 || 65 <= n <= 90 || n == 95)
      && (IsAlphaNum(c) <==> 97 <= n <= 122 || 65 <= n <= 90 || n == 95 || 48 <= n <= 57)
  {
  }

  /** The builtin types, one by one. */
  lemma BuiltinWords(w: string)
    ensures WordKind(w) == Builtin
       <==> w == "byte" || w == "char" || w == "double" || w == "float" || w == "int" || w == "long" || w == "short" || w == "string"
    ensures WordKind("bool") == Bool && WordKind("void") == Void
  {
  }

  /** The length of the longest run of letters, digits and underscores. */
  function WordLength(cs: string): (n: nat)
    ensures n <= |cs|
    ensures forall i :: 0 <= i < n ==> IsAlphaNum(cs[i])
    ensures n < |cs| ==> !IsAlphaNum(cs[n])
    ensures cs != [] && IsAlphaNum(cs[0]) ==> n > 0
  {
    if cs == [] || !IsAlphaNum(cs[0]) then 0 else 1 + WordLength(cs[1..])
  }

  /** One symbol other than a word, longest match first, and how many characters it takes. */
  function Sign(cs: string): (r: (Symbol, nat))
    requires cs != []
    ensures 1 <= r.1 <= |cs|
  {
    var next := if |cs| > 1 then cs[1] else ' ';
    if cs[0] == '>' then
      if next == '>' then (SHIFT_RIGHT, 2) else if next == '=' then (Symbol(Assign, ">="), 2)
      else (Symbol(Greater, ""), 1)
    else if cs[0] == '<' then
      if next == '<' then (Symbol(Shift, "<<"), 2) else if next == '=' then (Symbol(Assign, "<="), 2)
      else (Symbol(Less, ""), 1)
    else if cs[0] == ',' then (Symbol(Comma, ""), 1)
    else if cs[0] == '{' then (Symbol(LBrace, ""), 1)
    else if cs[0] == '}' then (Symbol(RBrace, ""), 1)
    else if cs[0] == ';' then (Symbol(Semicolon, ""), 1)
    else (Symbol(Punct, ""), 1)
  }

  predicate Blank(c: char) {
    c == ' ' || c == '\t' || c == '\n'
  }

  /** The next symbol, if any, and the number of characters it takes. */
  function Lexeme(cs: string): (r: (seq<Symbol>, nat))
    requires cs != []
    ensures 1 <= r.1 <= |cs|
  {
    if IsAlpha(cs[0]) then
      var n := WordLength(cs);
      ([Symbol(WordKind(cs[..n]), cs[..n])], n)
    else if Blank(cs[0]) then ([], 1)
    else ([Sign(cs).0], Sign(cs).1)
  }

  function Scan(cs: string): seq<Symbol>
    decreases |cs|
  {
    if cs == [] then [] else Lexeme(cs).0 + Scan(cs[Lexeme(cs).1..])
  }

  /** Two characters that may belong to one symbol. */
  predicate Glued(a: char, b: char) {
    (IsAlphaNum(a) && IsAlphaNum(b)) || ((a == '<' || a == '>') && (b == '<' || b == '>' || b == '='))
  }

  lemma {:induction false} WordLengthSplit(xs: string, ys: string)
    requires xs != [] && (ys == [] || !(IsAlphaNum(xs[|xs| - 1]) && IsAlphaNum(ys[0])))
    ensures WordLength(xs + ys) == WordLength(xs)
    decreases |xs|
  {
    if IsAlphaNum(xs[0]) {
      assert (xs + ys)[1..] == xs[1..] + ys;
      if |xs| > 1 {
        WordLengthSplit(xs[1..], ys);
      }
    }
  }

  lemma LexemeSplit(xs: string, ys: string)
    requires xs != [] && (ys == [] || !Glued(xs[|xs| - 1], ys[0]))
    ensures Lexeme(xs + ys) == Lexeme(xs)
  {
    var all := xs + ys;
    if IsAlpha(xs[0]) {
      WordLengthSplit(xs, ys);
      assert all[..WordLength(xs)] == xs[..WordLength(xs)];
    }
  }

  /** Text scans piecewise wherever no symbol can straddle the boundary. */
  lemma {:induction false} ScanSplit(xs: string, ys: string)
    requires xs == [] || ys == [] || !Glued(xs[|xs| - 1], ys[0])
    ensures Scan(xs + ys) == Scan(xs) + Scan(ys)
    decreases |xs|
  {
    hide Lexeme, Glued, Scan;
    if xs == [] {
      assert xs + ys == ys;
      ScanEmpty();
    } else {
      LexemeSplit(xs, ys);
      var n := Lexeme(xs).1;
      Dropped(xs, ys, n);
      ScanSplit(xs[n..], ys);
      ScanStep(xs);
      ScanStep(xs + ys);
      Regroup(Lexeme(xs).0, Scan(xs[n..]), Scan(ys));
    }
  }

  lemma Dropped(xs: string, ys: string, n: nat)
    requires 0 < n <= |xs|
    ensures (xs + ys)[n..] == xs[n..] + ys && (xs[n..] != [] ==> xs[n..][|xs[n..]| - 1] == xs[|xs| - 1])
  {
  }

  lemma Regroup<T>(a: seq<T>, b: seq<T>, c: seq<T>)
    ensures a + (b + c) == a + b + c
  {
  }

  lemma ScanEmpty()
    ensures Scan("") == []
  {
  }

  lemma ScanStep(cs: string)
    requires cs != []
    ensures Scan(cs) == Lexeme(cs).0 + Scan(cs[Lexeme(cs).1..])
  {
    hide Lexeme;
  }

  // ---- What the scanner makes of a printed type ----

  const GT := Symbol(Greater, "")

  /** Closing angles one by one, however the scanner paired them. */
  function Flatten(ts: seq<Symbol>): seq<Symbol> {
    if ts == [] then []
    else if ts[0] == SHIFT_RIGHT then [GT, GT] + Flatten(ts[1..])
    else if ts[0].kind == Greater then [GT] + Flatten(ts[1..])
    else [ts[0]] + Flatten(ts[1..])
  }

  lemma {:induction false} FlattenAppend(a: seq<Symbol>, b: seq<Symbol>)
    ensures Flatten(a + b) == Flatten(a) + Flatten(b)
    decreases |a|
  {
    if a == [] {
      assert a + b == b;
    } else {
      assert (a + b)[1..] == a[1..] + b;
      FlattenAppend(a[1..], b);
    }
  }

  /** The symbols of a type. */
  function Spell(t: Type): seq<Symbol>
    decreases t
  {
    [Symbol(WordKind(t.name), t.name)]
    + (if t.params == [] then [] else [Symbol(Less, "")] + SpellAll(t.params) + [GT])
  }

  function SpellAll(ts: seq<Type>): seq<Symbol>
    decreases ts
  {
    if ts == [] then []
    else if |ts| == 1 then Spell(ts[0])
    else Spell(ts[0]) + [Symbol(Comma, "")] + SpellAll(ts[1..])
  }

  /** A name the scanner reads as one word. */
  predicate IsWord(w: string) {
    w != [] && IsAlpha(w[0]) && forall i :: 0 <= i < |w| ==> IsAlphaNum(w[i])
  }

  /** Every name in the type is in scope and can name a type. */
  predicate Named(t: Type, scope: set<string>)
    decreases t
  {
    && IsWord(t.name) && t.name in scope && (WordKind(t.name) == Builtin || WordKind(t.name) == Bool || WordKind(t.name) == Word)
    && AllNamed(t.params, scope)
  }

  predicate AllNamed(ts: seq<Type>, scope: set<string>)
    decreases ts
  {
    ts != [] ==> Named(ts[0], scope) && AllNamed(ts[1..], scope)
  }

  lemma {:induction false} WordLengthAll(w: string)
    requires forall i :: 0 <= i < |w| ==> IsAlphaNum(w[i])
    ensures WordLength(w) == |w|
    decreases |w|
  {
    if w != [] { WordLengthAll(w[1..]); }
  }

  lemma ScanWord(w: string)
    requires IsWord(w)
    ensures Scan(w) == [Symbol(WordKind(w), w)]
  {
    WordLengthAll(w);
    assert w[..|w|] == w && w[|w|..] == [];
  }

  function FlatOne(t: Symbol): seq<Symbol> {
    if t == SHIFT_RIGHT then [GT, GT] else if t.kind == Greater then [GT] else [t]
  }

  lemma FlattenCons(t: Symbol, ts: seq<Symbol>)
    ensures Flatten([t] + ts) == FlatOne(t) + Flatten(ts) && Flatten([]) == []
  {
    assert ([t] + ts)[1..] == ts;
  }

  lemma ScanSigns()
    ensures Scan("<") == [Symbol(Less, "")] && Scan(", ") == [Symbol(Comma, "")] && Scan("") == []
    ensures Flatten([Symbol(Less, "")]) == [Symbol(Less, "")] && Flatten([Symbol(Comma, "")]) == [Symbol(Comma, "")]
  {
    assert "<"[1..] == "" && ", "[1..] == " " && " "[1..] == "";
    FlattenCons(Symbol(Less, ""), []);
    FlattenCons(Symbol(Comma, ""), []);
  }

  lemma WordIsFlat(w: string)
    requires IsWord(w)
    ensures Flatten(Scan(w)) == Scan(w) == [Symbol(WordKind(w), w)]
  {
    ScanWord(w);
    FlattenCons(Symbol(WordKind(w), w), []);
  }

  lemma AngleScans()
    ensures Scan("") == [] && Scan(">") == [GT] && Scan("" + ">") == [GT] && Scan(">" + ">") == [SHIFT_RIGHT]
    ensures Flatten([]) == [] && Flatten([GT]) == [GT] && Flatten([SHIFT_RIGHT]) == [GT, GT]
  {
    assert "" + ">" == ">" && ">" + ">" == ">>" && ">"[1..] == "" && ">>"[2..] == "";
    FlattenCons(GT, []);
    FlattenCons(SHIFT_RIGHT, []);
  }

  lemma LexemeClose(xs: string)
    requires xs != [] && xs != ">"
    ensures Lexeme(xs + ">") == Lexeme(xs)
  {
    if IsAlpha(xs[0]) {
      WordLengthSplit(xs, ">");
      assert (xs + ">")[..WordLength(xs)] == xs[..WordLength(xs)];
    } else if |xs| == 1 {
      assert xs == [xs[0]];
    }
  }

  /** One more closing angle, whatever it is paired with. */
  lemma {:induction false} FlattenClose(xs: string)
    ensures Flatten(Scan(xs + ">")) == Flatten(Scan(xs)) + [GT]
    decreases |xs|
  {
    hide Lexeme;
    var all := xs + ">";
    if xs == [] || xs == ">" {
      AngleScans();
    } else {
      var n := Lexeme(xs).1;
      LexemeClose(xs);
      assert all[n..] == xs[n..] + ">";
      FlattenClose(xs[n..]);
      FlattenAppend(Lexeme(xs).0, Scan(xs[n..]));
      FlattenAppend(Lexeme(xs).0, Scan(all[n..]));
    }
  }

  /** The first and last characters of a printed type. */
  lemma {:induction false} PrintEnds(t: Type)
    requires IsWord(t.name)
    ensures Print(t) != [] && IsAlpha(Print(t)[0])
    ensures IsAlphaNum(Print(t)[|Print(t)| - 1]) || Print(t)[|Print(t)| - 1] == '>'
  {
  }

  lemma NamedIsWord(t: Type, scope: set<string>)
    requires Named(t, scope)
    ensures IsWord(t.name)
  {
  }

  lemma {:induction false} ScanPrint(t: Type, scope: set<string>)
    requires Named(t, scope)
    ensures Flatten(Scan(Print(t))) == Spell(t)
    decreases t, 1
  {
    hide Scan, WordKind, Flatten, PrintAll, SpellAll, AllNamed;
    WordIsFlat(t.name);
    if t.params != [] {
      var open := t.name + "<";
      ScanSigns();
      ScanSplit(t.name, "<");
      FlattenAppend(Scan(t.name), Scan("<"));
      ScanPrintAll(t.params, scope);
      ScanSplit(open, PrintAll(t.params));
      FlattenAppend(Scan(open), Scan(PrintAll(t.params)));
      FlattenClose(open + PrintAll(t.params));
    }
  }

  lemma {:induction false} ScanPrintAll(ts: seq<Type>, scope: set<string>)
    requires AllNamed(ts, scope)
    ensures Flatten(Scan(PrintAll(ts))) == SpellAll(ts)
    ensures ts != [] ==> PrintAll(ts) != [] && IsAlpha(PrintAll(ts)[0])
    decreases ts, 0
  {
    hide Scan, WordKind, Flatten, Print, Spell, Named;
    if ts != [] {
      ScanPrint(ts[0], scope);
      NamedIsWord(ts[0], scope);
      PrintEnds(ts[0]);
      if |ts| > 1 {
        ScanPrintAll(ts[1..], scope);
        var first := Print(ts[0]) + ", ";
        ScanSigns();
        ScanSplit(Print(ts[0]), ", ");
        ScanSplit(first, PrintAll(ts[1..]));
        FlattenAppend(Scan(Print(ts[0])), Scan(", "));
        FlattenAppend(Scan(first), Scan(PrintAll(ts[1..])));
      }
    } else {
      ScanSigns();
      FlattenCons(GT, []);
    }
  }

  // ---- Parsing ----

  /** `Null`: the name is not a type in scope; `Failed`: a syntax error. */
  datatype Outcome<T> = Done(value: T, rest: seq<Symbol>) | Null | Failed

  /** Symbols left, where `>>` counts twice because it may be split. */
  function Weight(ts: seq<Symbol>): nat {
    if ts == [] then 0 else (if ts[0] == SHIFT_RIGHT then 2 else 1) + Weight(ts[1..])
  }

  /** A `>>` at the front becomes two symbols. */
  function SplitHead(ts: seq<Symbol>): (r: seq<Symbol>)
    ensures Weight(r) == Weight(ts)
  {
    if ts != [] && ts[0] == SHIFT_RIGHT then
      assert ([CLOSE, CLOSE] + ts[1..])[1..] == [CLOSE] + ts[1..] && ([CLOSE] + ts[1..])[1..] == ts[1..];
      [CLOSE, CLOSE] + ts[1..]
    else ts
  }

  predicate NamesType(k: Kind, allowVoid: bool) {
    k == Builtin || k == Bool || k == Word || (allowVoid && k == Void)
  }

  function ParseType(ts: seq<Symbol>, scope: set<string>, allowVoid: bool): (r: Outcome<Type>)
    ensures r.Done? ==> Weight(r.rest) < Weight(ts)
    decreases Weight(ts), 0
  {
    if ts == [] then Failed
    else if ts[0].kind == Modifier then ParseType(ts[1..], scope, allowVoid)
    else if !NamesType(ts[0].kind, allowVoid) then Failed
    else if ts[0].text !in scope then Null
    else if |ts| > 1 && ts[1].kind == Less then
      assert Weight(ts[1..]) > Weight(ts[1..][1..]) && ts[1..][1..] == ts[2..];
      match ParseArgs(ts[2..], scope)
      case Done(args, rest) => Done(Type(ts[0].text, args), rest)
      case _ => Failed
    else Done(Type(ts[0].text, []), ts[1..])
  }

  /** Type arguments up to and including the closing angle. */
  function ParseArgs(ts: seq<Symbol>, scope: set<string>): (r: Outcome<seq<Type>>)
    ensures r.Done? ==> Weight(r.rest) < Weight(ts)
    decreases Weight(ts), 1
  {
    match ParseType(ts, scope, false)
    case Done(t, after) =>
      var rest := SplitHead(after);
      if rest == [] then Failed
      else if rest[0].kind == Greater then Done([t], rest[1..])
      else if rest[0].kind == Comma then
        match ParseArgs(rest[1..], scope)
        case Done(args, rest2) => Done([t] + args, rest2)
        case _ => Failed
      else Failed
    case _ => Failed
  }

  // ---- Reading back what was printed ----

  /** What is left of `a` after n closing-angle-wise symbols were taken. */
  function Drop(a: seq<Symbol>, n: nat): (r: seq<Symbol>)
    requires n <= |Flatten(a)|
    ensures Flatten(r) == Flatten(a)[n..]
  {
    if n == 0 then a
    else if a[0] == SHIFT_RIGHT then
      if n == 1 then
        FlattenCons(CLOSE, a[1..]);
        [CLOSE] + a[1..]
      else Drop(a[1..], n - 2)
    else Drop(a[1..], n - 1)
  }

  lemma {:induction false} DropDrop(a: seq<Symbol>, m: nat, n: nat)
    requires m + n <= |Flatten(a)|
    ensures Drop(Drop(a, m), n) == Drop(a, m + n)
    decreases |a|
  {
    hide Flatten, Drop;
    if m == 0 {
      DropNone(a);
    } else {
      DropStep(a, m);
      DropStep(a, m + n);
      if a[0] != SHIFT_RIGHT {
        DropDrop(a[1..], m - 1, n);
      } else if m > 1 {
        DropDrop(a[1..], m - 2, n);
      } else if n == 0 {
        DropNone([CLOSE] + a[1..]);
      } else {
        DropStep([CLOSE] + a[1..], n);
        assert ([CLOSE] + a[1..])[1..] == a[1..];
      }
    }
  }

  lemma DropNone(a: seq<Symbol>)
    ensures Drop(a, 0) == a
  {
  }

  lemma DropStep(a: seq<Symbol>, n: nat)
    requires 0 < n <= |Flatten(a)|
    ensures a != [] && |Flatten(a)| == |Flatten(a[1..])| + if a[0] == SHIFT_RIGHT then 2 else 1
    ensures a[0] == SHIFT_RIGHT ==> Drop(a, n) == if n == 1 then [CLOSE] + a[1..] else Drop(a[1..], n - 2)
    ensures a[0] != SHIFT_RIGHT ==> Drop(a, n) == Drop(a[1..], n - 1)
  {
  }

  /** Whatever comes first is not taken for type arguments. */
  predicate NoArgs(ts: seq<Symbol>) {
    ts != [] ==> ts[0].kind != Less
  }

  /** `a` starts with the symbols of `t`, up to the pairing of closing angles. */
  predicate Starts(a: seq<Symbol>, spelt: seq<Symbol>) {
    spelt <= Flatten(a)
  }

  /** The first symbol, from the first flat one. */
  lemma HeadOf(a: seq<Symbol>)
    ensures Flatten(a) != [] ==> a != []
    ensures Flatten(a) != [] && Flatten(a)[0] == GT ==> a[0] == SHIFT_RIGHT || a[0].kind == Greater
    ensures Flatten(a) != [] && Flatten(a)[0] != GT ==> a[0] == Flatten(a)[0] && Drop(a, 1) == a[1..]
    ensures Flatten(a) != [] && Flatten(a)[0] != GT ==> Flatten(a[1..]) == Flatten(a)[1..]
  {
  }

  lemma ArgsStart(ts: seq<Type>)
    requires ts != []
    ensures var n := |Spell(ts[0])|; var all := SpellAll(ts) + [GT];
      && Spell(ts[0]) <= all && n < |all|
      && (if |ts| == 1 then all[n] == GT && |all| == n + 1
          else all[n] == Symbol(Comma, "") && all[n + 1..] == SpellAll(ts[1..]) + [GT])
  {
    hide Spell;
    if |ts| > 1 { Around(Spell(ts[0]), Symbol(Comma, ""), SpellAll(ts[1..]), GT); }
  }

  lemma Around(x: seq<Symbol>, c: Symbol, more: seq<Symbol>, g: Symbol)
    ensures var all := x + [c] + more + [g]; x <= all && all[|x|] == c && all[|x| + 1..] == more + [g]
  {
  }

  lemma {:induction false} ReadsBack(t: Type, scope: set<string>, allowVoid: bool, a: seq<Symbol>, b: seq<Symbol>)
    requires Named(t, scope) && Starts(a, Spell(t)) && NoArgs(Drop(a, |Spell(t)|) + b)
    ensures ParseType(a + b, scope, allowVoid) == Done(t, Drop(a, |Spell(t)|) + b)
    decreases t, 1
  {
    hide ParseArgs, ParseType, SpellAll, WordKind, AllNamed, Weight, Flatten, Drop, IsWord;
    HeadOf(a);
    assert Flatten(a)[0] == Spell(t)[0] == Symbol(WordKind(t.name), t.name);
    assert (a + b)[1..] == a[1..] + b;
    ParseName(a + b, t.name, scope, allowVoid);
    if t.params != [] {
      HeadOf(a[1..]);
      assert Flatten(a)[1] == Flatten(a[1..])[0] == Symbol(Less, "");
      assert (a[1..] + b)[1..] == a[1..][1..] + b;
      DropDrop(a, 1, 1);
      assert Flatten(Drop(a, 2)) == Flatten(a)[2..];
      ReadsArgs(t.params, scope, a[1..][1..], b);
      DropDrop(a, 2, |SpellAll(t.params)| + 1);
    }
  }

  lemma ParseName(ts: seq<Symbol>, name: string, scope: set<string>, allowVoid: bool)
    requires ts != [] && ts[0] == Symbol(WordKind(name), name) && name in scope && WordKind(name) in {Builtin, Bool, Word}
    ensures NoArgs(ts[1..]) ==> ParseType(ts, scope, allowVoid) == Done(Type(name, []), ts[1..])
    ensures ts[1..] != [] && ts[1..][0].kind == Less && ParseArgs(ts[1..][1..], scope).Done?
            ==> ParseType(ts, scope, allowVoid) == Done(Type(name, ParseArgs(ts[1..][1..], scope).value),
                                                        ParseArgs(ts[1..][1..], scope).rest)
  {
    hide WordKind, ParseArgs, Weight;
    if |ts| > 1 { assert ts[1..][1..] == ts[2..]; }
  }

  lemma DropOne(d: seq<Symbol>)
    requires Flatten(d) != []
    ensures d != [] && Drop(d, 1) == if d[0] == SHIFT_RIGHT then [CLOSE] + d[1..] else d[1..]
  {
  }

  /** A closing angle ends the list, split off a `>>` if necessary. */
  lemma LastArg(t: Type, scope: set<string>, ts: seq<Symbol>, d: seq<Symbol>, b: seq<Symbol>)
    requires ParseType(ts, scope, false) == Done(t, d + b)
    requires Flatten(d) != [] && (d != [] && (d[0] == SHIFT_RIGHT || d[0].kind == Greater))
    ensures ParseArgs(ts, scope) == Done([t], Drop(d, 1) + b)
  {
    hide ParseType, Weight, Flatten, Drop;
    DropOne(d);
    var rest := SplitHead(d + b);
    assert (d + b)[1..] == d[1..] + b;
    if d[0] == SHIFT_RIGHT {
      assert rest[1..] == [CLOSE] + (d[1..] + b) == [CLOSE] + d[1..] + b;
    }
    assert rest[0].kind == Greater && rest[1..] == Drop(d, 1) + b;
  }

  lemma MoreArgs(t: Type, more: seq<Type>, scope: set<string>, ts: seq<Symbol>, d: seq<Symbol>, b: seq<Symbol>)
    requires ParseType(ts, scope, false) == Done(t, d + b) && d != [] && d[0] == Symbol(Comma, "")
    requires ParseArgs(d[1..] + b, scope).Done? && ParseArgs(d[1..] + b, scope).value == more
    ensures ParseArgs(ts, scope) == Done([t] + more, ParseArgs(d[1..] + b, scope).rest)
  {
    hide ParseType, Weight;
    assert (d + b)[1..] == d[1..] + b;
  }

  lemma {:induction false} ReadsArgs(ts: seq<Type>, scope: set<string>, a: seq<Symbol>, b: seq<Symbol>)
    requires ts != [] && AllNamed(ts, scope) && Starts(a, SpellAll(ts) + [GT])
    ensures ParseArgs(a + b, scope) == Done(ts, Drop(a, |SpellAll(ts)| + 1) + b)
    decreases ts, 0
  {
    hide ParseType, Spell, SpellAll, Weight, Flatten, Drop, ParseArgs, Starts, AllNamed;
    AllNamedParts(ts, scope);
    var n := |Spell(ts[0])|;
    FirstFlat(ts, a);
    var d := Drop(a, n);
    HeadOf(d);
    ReadsBack(ts[0], scope, false, a, b);
    if |ts| == 1 {
      DropDrop(a, n, 1);
      OneSpelt(ts);
      LastArg(ts[0], scope, a + b, d, b);
      assert [ts[0]] == ts;
    } else {
      ReadsArgs(ts[1..], scope, d[1..], b);
      DropRest(ts, a);
      MoreArgs(ts[0], ts[1..], scope, a + b, d, b);
      assert [ts[0]] + ts[1..] == ts;
    }
  }

  lemma AllNamedParts(ts: seq<Type>, scope: set<string>)
    requires ts != [] && AllNamed(ts, scope)
    ensures Named(ts[0], scope) && AllNamed(ts[1..], scope)
  {
  }

  lemma OneSpelt(ts: seq<Type>)
    requires |ts| == 1
    ensures SpellAll(ts) == Spell(ts[0])
  {
  }

  /** What the flat symbols start with after the first argument. */
  lemma FirstFlat(ts: seq<Type>, a: seq<Symbol>)
    requires ts != [] && Starts(a, SpellAll(ts) + [GT])
    ensures var n := |Spell(ts[0])|;
      && Starts(a, Spell(ts[0])) && n < |Flatten(a)|
      && var d := Drop(a, n);
        && d != []
        && (|ts| == 1 ==> Flatten(d) != [] && (d[0] == SHIFT_RIGHT || d[0].kind == Greater))
        && (|ts| > 1 ==> d[0] == Symbol(Comma, "") && Starts(d[1..], SpellAll(ts[1..]) + [GT]))
        && (Flatten(d) != [] ==> d[0].kind != Less)
  {
    hide Spell, SpellAll, Flatten, Drop;
    var n := |Spell(ts[0])|;
    ArgsStart(ts);
    var d := Drop(a, n);
    HeadOf(d);
    assert Flatten(d)[0] == Flatten(a)[n];
    if |ts| > 1 { assert Flatten(d[1..]) == Flatten(a)[n + 1..]; }
  }

  lemma DropRest(ts: seq<Type>, a: seq<Symbol>)
    requires |ts| > 1 && Starts(a, SpellAll(ts) + [GT])
    ensures |Spell(ts[0])| < |Flatten(a)| && |SpellAll(ts)| < |Flatten(a)|
    ensures var d := Drop(a, |Spell(ts[0])|);
      && d != [] && |SpellAll(ts[1..])| < |Flatten(d[1..])|
      && Drop(d[1..], |SpellAll(ts[1..])| + 1) == Drop(a, |SpellAll(ts)| + 1)
  {
    hide Spell, Drop, Flatten;
    var n := |Spell(ts[0])|;
    FirstFlat(ts, a);
    DropDrop(a, n, 1);
    DropComma(Drop(a, n));
    DropDrop(a, n + 1, |SpellAll(ts[1..])| + 1);
  }

  lemma DropComma(d: seq<Symbol>)
    requires d != [] && d[0] == Symbol(Comma, "")
    ensures 1 <= |Flatten(d)| && Drop(d, 1) == d[1..]
  {
  }

  lemma {:induction false} NothingFlat(a: seq<Symbol>)
    requires Flatten(a) == []
    ensures a == []
  {
  }

  /**
   The round trip: whatever the nesting depth, printing a type, scanning the text together
   with what follows it, and parsing with splits gives the type back and stops right after it.
   */
  lemma RoundTrip(t: Type, scope: set<string>, allowVoid: bool, tail: string)
    requires Named(t, scope)
    requires tail != [] ==> !Glued(Print(t)[|Print(t)| - 1], tail[0])
    requires NoArgs(Scan(tail))
    ensures ParseType(Scan(Print(t) + tail), scope, allowVoid) == Done(t, Scan(tail))
  {
    hide ParseType, Scan, Spell, Print, Glued, Named;
    var a := Scan(Print(t));
    ScanSplit(Print(t), tail);
    ScanPrint(t, scope);
    NothingFlat(Drop(a, |Spell(t)|));
    assert [] + Scan(tail) == Scan(tail);
    ReadsBack(t, scope, allowVoid, a, Scan(tail));
  }

  /** In particular, no two types are printed alike. */
  lemma PrintInjective(t: Type, u: Type, scope: set<string>)
    requires Named(t, scope) && Named(u, scope) && Print(t) == Print(u)
    ensures t == u
  {
    hide ParseType, Print;
    assert Scan("") == [];
    RoundTrip(t, scope, false, "");
    RoundTrip(u, scope, false, "");
  }

  // ---- Whatever is read was a type ----

  /** Symbols without modifiers, closing angles one by one, signs without their text. */
  function Bare(ts: seq<Symbol>): seq<Symbol> {
    if ts == [] then [] else BareOne(ts[0]) + Bare(ts[1..])
  }

  function BareOne(s: Symbol): seq<Symbol> {
    if s == SHIFT_RIGHT then [GT, GT]
    else if s.kind == Greater then [GT]
    else if s.kind == Modifier then []
    else if s.kind == Less then [Symbol(Less, "")]
    else if s.kind == Comma then [Symbol(Comma, "")]
    else [s]
  }

  /** Words have the kinds that the scanner gives them. */
  predicate AsScanned(ts: seq<Symbol>) {
    forall i :: 0 <= i < |ts| && ts[i].kind in {Builtin, Bool, Word, Void} ==> ts[i].kind == WordKind(ts[i].text)
  }

  /** Names in scope that can name a type; `void` only by itself and where it is allowed. */
  predicate Legit(t: Type, scope: set<string>, allowVoid: bool)
    decreases t
  {
    && t.name in scope
    && (WordKind(t.name) == Builtin || WordKind(t.name) == Bool || WordKind(t.name) == Word || (allowVoid && WordKind(t.name) == Void))
    && AllLegit(t.params, scope)
  }

  predicate AllLegit(ts: seq<Type>, scope: set<string>)
    decreases ts
  {
    ts != [] ==> Legit(ts[0], scope, false) && AllLegit(ts[1..], scope)
  }

  lemma BareSplit(ts: seq<Symbol>)
    ensures Bare(SplitHead(ts)) == Bare(ts)
  {
    if ts != [] && ts[0] == SHIFT_RIGHT {
      assert ([CLOSE, CLOSE] + ts[1..])[1..] == [CLOSE] + ts[1..] && ([CLOSE] + ts[1..])[1..] == ts[1..];
      assert [GT] + ([GT] + Bare(ts[1..])) == [GT, GT] + Bare(ts[1..]);
    }
  }

  lemma ScannedSplit(ts: seq<Symbol>)
    requires AsScanned(ts)
    ensures AsScanned(SplitHead(ts))
  {
  }

  lemma ScannedTail(ts: seq<Symbol>)
    requires AsScanned(ts) && ts != []
    ensures AsScanned(ts[1..]) && Weight(ts[1..]) < Weight(ts) && Bare(ts) == BareOne(ts[0]) + Bare(ts[1..])
  {
  }

  /** A type that was read is spelt by the symbols consumed, modifiers apart, and all its names are legitimate. */
  lemma {:induction false} ReadIsSpelt(ts: seq<Symbol>, scope: set<string>, allowVoid: bool)
    requires AsScanned(ts) && ParseType(ts, scope, allowVoid).Done?
    ensures var Done(t, rest) := ParseType(ts, scope, allowVoid);
      AsScanned(rest) && Bare(ts) == Spell(t) + Bare(rest) && Legit(t, scope, allowVoid)
    decreases Weight(ts), 0
  {
    hide ParseArgs, WordKind, SpellAll, AllLegit, AsScanned, Weight, Bare, NamesType;
    ScannedTail(ts);
    if ts[0].kind == Modifier {
      ReadIsSpelt(ts[1..], scope, allowVoid);
    } else {
      NameIsSpelt(ts, allowVoid);
      if |ts| > 1 && ts[1].kind == Less {
        ScannedTail(ts[1..]);
        assert ts[1..][1..] == ts[2..];
        ArgsAreSpelt(ts[2..], scope);
        var Done(args, rest) := ParseArgs(ts[2..], scope);
        SpellGroups(Symbol(WordKind(ts[0].text), ts[0].text), SpellAll(args), Bare(rest));
        SomeArgs(ts[2..], scope);
      } else {
        NoArgsLegit(scope);
      }
    }
  }

  lemma NoArgsLegit(scope: set<string>)
    ensures AllLegit([], scope)
  {
  }

  lemma SomeArgs(ts: seq<Symbol>, scope: set<string>)
    ensures ParseArgs(ts, scope).Done? ==> ParseArgs(ts, scope).value != []
  {
    hide ParseType;
  }

  lemma NameIsSpelt(ts: seq<Symbol>, allowVoid: bool)
    requires ts != [] && AsScanned(ts) && NamesType(ts[0].kind, allowVoid)
    ensures ts[0] == Symbol(WordKind(ts[0].text), ts[0].text) && BareOne(ts[0]) == [ts[0]]
    ensures
      var k := WordKind(ts[0].text);
      k == Builtin || k == Bool || k == Word || (allowVoid && k == Void)
  {
  }

  lemma SpellGroups(name: Symbol, args: seq<Symbol>, rest: seq<Symbol>)
    ensures [name] + ([Symbol(Less, "")] + (args + [GT] + rest)) == [name] + ([Symbol(Less, "")] + args + [GT]) + rest
  {
  }

  lemma {:induction false} ArgsAreSpelt(ts: seq<Symbol>, scope: set<string>)
    requires AsScanned(ts) && ParseArgs(ts, scope).Done?
    ensures var Done(args, rest) := ParseArgs(ts, scope);
      AsScanned(rest) && Bare(ts) == SpellAll(args) + [GT] + Bare(rest) && AllLegit(args, scope)
    decreases Weight(ts), 1
  {
    hide ParseType, WordKind, Spell, Legit, AsScanned, Weight, Bare;
    ReadIsSpelt(ts, scope, false);
    var Done(t, after) := ParseType(ts, scope, false);
    var rest := SplitHead(after);
    BareSplit(after);
    ScannedSplit(after);
    ScannedTail(rest);
    hide SplitHead;
    if rest[0].kind == Greater {
      assert [t][1..] == [];
      assert Spell(t) + ([GT] + Bare(rest[1..])) == Spell(t) + [GT] + Bare(rest[1..]);
    } else {
      ArgsAreSpelt(rest[1..], scope);
      SomeArgs(rest[1..], scope);
      var Done(args, rest2) := ParseArgs(rest[1..], scope);
      assert ([t] + args)[1..] == args;
      ListGroups(Spell(t), SpellAll(args), Bare(rest2));
    }
  }

  lemma ListGroups(first: seq<Symbol>, more: seq<Symbol>, rest: seq<Symbol>)
    ensures first + ([Symbol(Comma, "")] + (more + [GT] + rest)) == first + [Symbol(Comma, "")] + more + [GT] + rest
  {
  }

  // ---- The type parser on the replay buffer ----

  /** The symbols before the end of the file. */
  function Live(ts: seq<Symbol>): seq<Symbol> {
    if ts == [] || ts[0].kind == EndOfFile then [] else [ts[0]] + Live(ts[1..])
  }

  function Left(s: Stream): seq<Symbol> {
    if s.pos <= |s.tokens| then Live(s.tokens[s.pos..]) else []
  }

  lemma {:induction false} LiveAppend(ts: seq<Symbol>)
    ensures Live(ts + [EOF]) == Live(ts)
    decreases |ts|
  {
    if ts == [] {
      assert ts + [EOF] == [EOF];
    } else {
      assert (ts + [EOF])[1..] == ts[1..] + [EOF];
      LiveAppend(ts[1..]);
    }
  }

  lemma LookLeft(s: Stream)
    requires Sound(s)
    ensures Left(Look(s)) == Left(s) && At(Look(s)) == At(s)
    ensures At(s) == if Left(s) == [] then EOF else Left(s)[0]
    ensures At(s).kind == EndOfFile <==> Left(s) == []
  {
    if s.pos >= s.seen && s.pos == |s.tokens| {
      assert Look(s).tokens[s.pos..] == [EOF];
      assert s.tokens[s.pos..] == [];
    }
  }

  lemma AdvanceLeft(s: Stream)
    requires Sound(s)
    ensures Left(Advance(s)) == if Left(s) == [] then [] else Left(s)[1..]
  {
    LookLeft(s);
    var l := Look(s);
    assert l.pos < |l.tokens| && l.tokens[l.pos..][1..] == l.tokens[l.pos + 1..];
    if Left(s) == [] && l.pos + 1 < |l.tokens| {
      assert l.tokens[l.pos + 1] == EOF;
    }
  }

  lemma LiveCons(t: Symbol, ts: seq<Symbol>)
    requires t.kind != EndOfFile
    ensures Live([t] + ts) == [t] + Live(ts)
  {
    assert ([t] + ts)[1..] == ts;
  }

  lemma SplitTokens(ts: seq<Symbol>, pos: nat)
    requires pos < |ts| && ts[pos] == SHIFT_RIGHT
    ensures Live((ts[..pos] + [CLOSE, CLOSE] + ts[pos + 1..])[pos..]) == SplitHead(Live(ts[pos..]))
  {
    hide Live, Weight;
    var after := ts[pos + 1..];
    assert ts[pos..] == [SHIFT_RIGHT] + after;
    assert (ts[..pos] + [CLOSE, CLOSE] + after)[pos..] == [CLOSE] + ([CLOSE] + after);
    LiveCons(SHIFT_RIGHT, after);
    LiveCons(CLOSE, after);
    LiveCons(CLOSE, [CLOSE] + after);
    assert ([SHIFT_RIGHT] + Live(after))[1..] == Live(after);
    assert [CLOSE, CLOSE] + Live(after) == [CLOSE] + ([CLOSE] + Live(after));
  }

  lemma SplitLeft(s: Stream)
    requires Sound(s)
    ensures Left(Split(s)) == SplitHead(Left(s))
  {
    LookLeft(s);
    hide Sound, Live, Weight;
    if At(s) == SHIFT_RIGHT { SplitTokens(Look(s).tokens, s.pos); }
  }

  datatype Result<T> = Parsed(value: T) | NullType | SyntaxError

  /** The result and the symbols left are those of the grammar; nothing before the start changed. */
  ghost predicate Reads<T>(r: Result<T>, expected: Outcome<T>, before: Stream, after: Stream) {
    && (match expected
        case Done(v, rest) => r == Parsed(v) && Left(after) == rest
        case Null => r.NullType?
        case Failed => r.SyntaxError?)
    && Untouched(before, after)
  }

  ghost predicate Untouched(before: Stream, after: Stream) {
    && Sound(after) && before.pos <= after.pos && |before.tokens| <= |after.tokens| && before.pos <= |before.tokens|
    && after.tokens[..before.pos] == before.tokens[..before.pos]
  }

  lemma StepUntouched(a: Stream, b: Stream, op: Op)
    requires Untouched(a, b) && !op.Rewind?
    ensures Untouched(a, Apply(b, op))
  {
    ApplySound(b, op);
    StepPrefix(b, op, a.pos);
  }

  lemma StartUntouched(s: Stream)
    requires Sound(s)
    ensures Untouched(s, s)
  {
  }

  method Next(l: Lexer, ghost before: Stream) returns (sym: Kind)
    requires l.Valid() && Untouched(before, l.View())
    modifies l
    ensures l.Valid() && Untouched(before, l.View()) && l.View() == Advance(old(l.View()))
    ensures l.mCurrentPos == old(l.mCurrentPos) + 1 <= |l.mSymbolList|
    ensures l.mSymbolList[l.mCurrentPos - 1] == Symbol(sym, l.mMatchString)
    ensures
      var left := old(Left(l.View()));
      && (if left == [] then Symbol(sym, l.mMatchString) == EOF && Left(l.View()) == []
          else Symbol(sym, l.mMatchString) == left[0] && Left(l.View()) == left[1..])
      && [Symbol(sym, l.mMatchString)] + Left(l.View()) == (if left == [] then [EOF] else left)
  {
    hide Sound, Live, Untouched;
    LookLeft(l.View());
    AdvanceLeft(l.View());
    StepUntouched(before, l.View(), Get);
    sym := l.GetSymbol();
    assert l.mSymbolList[l.mCurrentPos - 1] == l.View().tokens[l.mCurrentPos - 1];
  }

  method Ahead(l: Lexer, ghost before: Stream) returns (sym: Kind)
    requires l.Valid() && Untouched(before, l.View())
    modifies l
    ensures l.Valid() && Untouched(before, l.View()) && l.View() == Look(old(l.View()))
    ensures Left(l.View()) == old(Left(l.View())) && l.mCurrentPos < |l.mSymbolList|
    ensures sym == if Left(l.View()) == [] then EndOfFile else Left(l.View())[0].kind
  {
    hide Sound, Live, Untouched;
    LookLeft(l.View());
    StepUntouched(before, l.View(), Peek);
    sym := l.PeekSymbol();
  }

  method SplitAhead(l: Lexer, ghost before: Stream)
    requires l.Valid() && Untouched(before, l.View())
    modifies l
    ensures l.Valid() && Untouched(before, l.View()) && Left(l.View()) == SplitHead(old(Left(l.View())))
  {
    hide Sound, Live, Untouched;
    SplitLeft(l.View());
    StepUntouched(before, l.View(), SplitShift);
    l.SplitShiftIntoCloseAngles();
  }

  /** The grammar, after the first symbol was consumed. */
  lemma TypeSteps(head: Symbol, ts: seq<Symbol>, scope: set<string>, allowVoid: bool)
    ensures ParseType([], scope, allowVoid) == ParseType([EOF], scope, allowVoid)
    ensures
      ParseType([head] + ts, scope, allowVoid)
      == if head.kind == Modifier then ParseType(ts, scope, allowVoid)
         else if !NamesType(head.kind, allowVoid) then Failed
         else if head.text !in scope then Null
         else if ts != [] && ts[0].kind == Less then WithArgs(head.text, ParseArgs(ts[1..], scope))
         else Done(Type(head.text, []), ts)
  {
    hide ParseArgs;
    var all := [head] + ts;
    assert all[1..] == ts;
    if ts != [] { assert all[2..] == ts[1..]; }
  }

  function WithArgs(name: string, args: Outcome<seq<Type>>): Outcome<Type> {
    if args.Done? then Done(Type(name, args.value), args.rest) else Failed
  }

  method ParseTypeFrom(l: Lexer, scope: set<string>, allowVoid: bool) returns (r: Result<Type>)
    requires l.Valid()
    modifies l
    ensures l.Valid() && Reads(r, ParseType(old(Left(l.View())), scope, allowVoid), old(l.View()), l.View())
    decreases Weight(Left(l.View())), 0
  {
    hide ParseArgs, ParseType, Sound, Live, Untouched, Weight;
    ghost var before := l.View();
    StartUntouched(before);
    ghost var left := Left(before);
    TypeSteps(EOF, [], scope, allowVoid);
    var sym := Next(l, before);
    FirstSymbol(left);
    while sym == Modifier
      invariant l.Valid() && Untouched(before, l.View()) && Weight(Left(l.View())) <= Weight(Left(before))
      invariant ParseType(left, scope, allowVoid)
             == ParseType([Symbol(sym, l.mMatchString)] + Left(l.View()), scope, allowVoid)
      invariant sym != EndOfFile ==> Weight(Left(l.View())) < Weight(Left(before))
      decreases Weight(Left(l.View())), sym == Modifier
    {
      TypeSteps(Symbol(sym, l.mMatchString), Left(l.View()), scope, allowVoid);
      FirstSymbol(Left(l.View()));
      sym := Next(l, before);
    }
    TypeSteps(Symbol(sym, l.mMatchString), Left(l.View()), scope, allowVoid);
    if !NamesType(sym, allowVoid) { return SyntaxError; }
    var name := l.mMatchString;
    if name !in scope { return NullType; }
    var next := Ahead(l, before);
    if next != Less { return Parsed(Type(name, [])); }
    FirstSymbol(Left(l.View()));
    next := Next(l, before);
    var args := ParseArgsFrom(l, scope, before);
    r := if args.Parsed? then Parsed(Type(name, args.value)) else SyntaxError;
  }

  lemma FirstSymbol(ts: seq<Symbol>)
    ensures ts != [] ==> ts == [ts[0]] + ts[1..] && Weight(ts[1..]) < Weight(ts)
  {
  }

  function Prepend(ts: seq<Type>, o: Outcome<seq<Type>>): Outcome<seq<Type>> {
    if o.Done? then Done(ts + o.value, o.rest) else Failed
  }

  lemma ArgsStep(ts: seq<Symbol>, scope: set<string>)
    ensures
      var o := ParseType(ts, scope, false);
      var rest := if o.Done? then SplitHead(o.rest) else [];
      ParseArgs(ts, scope)
      == if rest == [] then Failed
         else if rest[0].kind == Greater then Done([o.value], rest[1..])
         else if rest[0].kind == Comma then Prepend([o.value], ParseArgs(rest[1..], scope))
         else Failed
  {
    hide ParseType;
  }

  lemma PrependStep(ts: seq<Type>, t: Type, o: Outcome<seq<Type>>)
    ensures Prepend(ts, Prepend([t], o)) == Prepend(ts + [t], o)
    ensures Prepend([], o).Done? == o.Done? && (o.Done? ==> Prepend([], o) == o)
  {
    if o.Done? {
      assert ts + ([t] + o.value) == ts + [t] + o.value;
      assert [] + o.value == o.value;
    }
  }

  lemma SplitOnly(ts: seq<Symbol>)
    ensures ts == [] || ts[0].kind != Shift ==> SplitHead(ts) == ts
  {
  }

  lemma UntouchedTrans(a: Stream, b: Stream, c: Stream)
    requires Untouched(a, b) && Untouched(b, c)
    ensures Untouched(a, c)
  {
    hide Sound;
    assert c.tokens[..a.pos] == c.tokens[..b.pos][..a.pos];
    assert b.tokens[..a.pos] == b.tokens[..b.pos][..a.pos];
  }

  /** Type arguments; a `>>` is split so that this list closes on its first half. */
  method ParseArgsFrom(l: Lexer, scope: set<string>, ghost before: Stream) returns (r: Result<seq<Type>>)
    requires l.Valid() && Untouched(before, l.View())
    modifies l
    ensures l.Valid() && Untouched(before, l.View())
    ensures
      match ParseArgs(old(Left(l.View())), scope)
      case Done(ts, rest) => r == Parsed(ts) && Left(l.View()) == rest
      case _ => r.SyntaxError?
    decreases Weight(Left(l.View())), 1
  {
    hide ParseArgs, ParseType, Sound, Live, Untouched, Weight, SplitHead;
    var types := [];
    ghost var start := Left(l.View());
    PrependStep([], Type("", []), ParseArgs(start, scope));
    while true
      invariant l.Valid() && Untouched(before, l.View()) && Weight(Left(l.View())) <= Weight(start)
      invariant Prepend(types, ParseArgs(Left(l.View()), scope)) == Prepend([], ParseArgs(start, scope))
      decreases Weight(Left(l.View()))
    {
      ghost var here := l.View();
      ArgsStep(Left(here), scope);
      var param := ParseTypeFrom(l, scope, false);
      UntouchedTrans(before, here, l.View());
      if !param.Parsed? { return SyntaxError; }
      var next := Ahead(l, before);
      SplitOnly(Left(l.View()));
      if next == Shift { SplitAhead(l, before); }
      FirstSymbol(Left(l.View()));
      next := Next(l, before);
      if next == Greater {
        return Parsed(types + [param.value]);
      }
      if next != Comma { return SyntaxError; }
      PrependStep(types, param.value, ParseArgs(Left(l.View()), scope));
      types := types + [param.value];
    }
  }
}
