/**
 String interpolation: a raw string is cut into literal parts and references to variables or
 their fields. Nothing is lost, and what looks like a reference is resolved or rejected.
 */
module Interpolation {
  /** A variable, or a field of one. */
  datatype Chain = Variable(name: string) | FieldAccess(base: Chain, field: string)

  datatype Part = Literal(s: string) | Reference(e: Chain)

  /** `Unresolved`: the compile error for a reference whose base is not a variable. */
  datatype Outcome = Parts(parts: seq<Part>) | Unresolved

  function ChainText(e: Chain): string {
    match e
    case Variable(n) => n
    case FieldAccess(b, f) => ChainText(b) + "." + f
  }

  function PartText(p: Part): string {
    match p
    case Literal(s) => s
    case Reference(e) => "{" + ChainText(e) + "}"
  }

  function Render(ps: seq<Part>): string {
    if ps == [] then "" else PartText(ps[0]) + Render(ps[1..])
  }

  // ---- Shapes ----

  predicate IsAlpha(c: char) {
    'a' <= c <= 'z' || 'A' <= c <= 'Z' || c == '_'
  }

  predicate IsAlphaNum(c: char) {
    IsAlpha(c) || '0' <= c <= '9'
  }

  predicate IsIdentifier(s: string) {
    s != "" && IsAlpha(s[0]) && forall i :: 0 <= i < |s| ==> IsAlphaNum(s[i])
  }

  /** A name is of ASCII letters, digits and underscores, and does not start with a digit. */
  lemma IdentifierCharacters(s: string)
    ensures
      IsIdentifier(s)
      <==> && s != "" && !(48 <= s[0] as int <= 57)
           && forall i :: 0 <= i < |s| ==>
                var n := s[i] as int;
                97 <= n <= 122 || 65 <= n <= 90 || n == 95 || 48 <= n <= 57
  {
  }

  /** The first position of `c` at or after `from`, or the length. */
  function Find(s: string, c: char, from: nat): (n: nat)
    requires from <= |s|
    ensures from <= n <= |s| && (n < |s| ==> s[n] == c) && forall i :: from <= i < n ==> s[i] != c
    decreases |s| - from
  {
    if from == |s| || s[from] == c then from else Find(s, c, from + 1)
  }

  function SplitDots(s: string): (r: seq<string>)
    ensures r != [] && forall i :: 0 <= i < |r| ==> '.' !in r[i]
    decreases |s|
  {
    var dot := Find(s, '.', 0);
    if dot == |s| then [s] else [s[..dot]] + SplitDots(s[dot + 1..])
  }

  function JoinDots(segs: seq<string>): string
    requires segs != []
  {
    if |segs| == 1 then segs[0] else segs[0] + "." + JoinDots(segs[1..])
  }

  /** A name, or a dotted name. */
  predicate IsPath(s: string) {
    forall i :: 0 <= i < |SplitDots(s)| ==> IsIdentifier(SplitDots(s)[i])
  }

  function ChainOf(segs: seq<string>): Chain
    requires segs != []
  {
    if |segs| == 1 then Variable(segs[0]) else FieldAccess(ChainOf(segs[..|segs| - 1]), segs[|segs| - 1])
  }

  // ---- The parts of a raw string ----

  function Text(s: string): seq<Part> {
    if s == "" then [] else [Literal(s)]
  }

  /** What `{inside}` becomes: a reference, a literal, or nothing when it does not resolve. */
  function Group(inside: string, scope: set<string>): Option<Part> {
    if !IsPath(inside) then Some(Literal("{" + inside + "}"))
    else if SplitDots(inside)[0] in scope then Some(Reference(ChainOf(SplitDots(inside))))
    else None
  }

  function Cut(raw: string, scope: set<string>): Outcome
    decreases |raw|
  {
    var open := Find(raw, '{', 0);
    if open == |raw| then Parts(Text(raw))
    else
      var close := Find(raw, '}', open);
      if close == |raw| then Parts(Text(raw[..open]) + [Literal(raw[open..])])
      else Joined(Text(raw[..open]), Group(raw[open + 1..close], scope), Cut(raw[close + 1..], scope))
  }

  function Joined(text: seq<Part>, part: Option<Part>, rest: Outcome): Outcome {
    if part.None? || rest.Unresolved? then Unresolved else Parts(text + [part.value] + rest.parts)
  }

  datatype Option<T> = None | Some(value: T)

  // ---- Nothing is lost ----

  lemma {:induction false} JoinSplit(s: string)
    ensures JoinDots(SplitDots(s)) == s
    decreases |s|
  {
    var dot := Find(s, '.', 0);
    if dot < |s| {
      JoinSplit(s[dot + 1..]);
      assert SplitDots(s)[1..] == SplitDots(s[dot + 1..]);
      assert s == s[..dot] + "." + s[dot + 1..];
    }
  }

  lemma {:induction false} JoinLast(segs: seq<string>)
    requires |segs| > 1
    ensures JoinDots(segs) == JoinDots(segs[..|segs| - 1]) + "." + segs[|segs| - 1]
    decreases |segs|
  {
    var init := segs[..|segs| - 1];
    if |segs| > 2 {
      JoinLast(segs[1..]);
      assert segs[1..][..|segs| - 2] == init[1..];
      assert segs[0] + "." + (JoinDots(init[1..]) + "." + segs[|segs| - 1])
          == segs[0] + "." + JoinDots(init[1..]) + "." + segs[|segs| - 1];
    }
  }

  lemma {:induction false} ChainShows(segs: seq<string>)
    requires segs != []
    ensures ChainText(ChainOf(segs)) == JoinDots(segs)
    decreases |segs|
  {
    if |segs| > 1 {
      ChainShows(segs[..|segs| - 1]);
      JoinLast(segs);
    }
  }

  lemma {:induction false} RenderAppend(a: seq<Part>, b: seq<Part>)
    ensures Render(a + b) == Render(a) + Render(b)
    decreases |a|
  {
    if a == [] {
      assert a + b == b;
    } else {
      assert (a + b)[1..] == a[1..] + b;
      RenderAppend(a[1..], b);
    }
  }

  lemma RenderOne(p: Part)
    ensures Render([p]) == PartText(p)
  {
    assert [p][1..] == [] && Render([]) == "";
  }

  lemma RenderText(s: string)
    ensures Render(Text(s)) == s
  {
    RenderOne(Literal(s));
  }

  lemma GroupShows(inside: string, scope: set<string>)
    requires Group(inside, scope).Some?
    ensures PartText(Group(inside, scope).value) == "{" + inside + "}"
  {
    hide IsPath;
    JoinSplit(inside);
    ChainShows(SplitDots(inside));
  }

  lemma RenderJoined(text: seq<Part>, part: Part, rest: seq<Part>)
    ensures Render(text + [part] + rest) == Render(text) + PartText(part) + Render(rest)
  {
    RenderAppend(text, [part]);
    RenderAppend(text + [part], rest);
    RenderOne(part);
  }

  /** Concatenating the parts, references re-rendered in braces, gives back the raw string. */
  lemma {:induction false} NothingIsLost(raw: string, scope: set<string>)
    requires Cut(raw, scope).Parts?
    ensures Render(Cut(raw, scope).parts) == raw
    decreases |raw|
  {
    hide Group, Render, PartText, Text;
    var open := Find(raw, '{', 0);
    if open == |raw| {
      RenderText(raw);
    } else {
      RenderText(raw[..open]);
      var close := Find(raw, '}', open);
      if close == |raw| {
        LiteralShows(raw[open..]);
        RenderAppend(Text(raw[..open]), [Literal(raw[open..])]);
        assert raw[..open] + raw[open..] == raw;
      } else {
        var inside := raw[open + 1..close];
        GroupShows(inside, scope);
        NothingIsLost(raw[close + 1..], scope);
        RenderJoined(Text(raw[..open]), Group(inside, scope).value, Cut(raw[close + 1..], scope).parts);
        Pieces(raw, open, close);
      }
    }
  }

  lemma Pieces(raw: string, open: nat, close: nat)
    requires open < close < |raw| && raw[open] == '{' && raw[close] == '}'
    ensures raw == raw[..open] + ("{" + raw[open + 1..close] + "}") + raw[close + 1..]
  {
  }

  lemma LiteralShows(s: string)
    ensures Render([Literal(s)]) == s
  {
    RenderOne(Literal(s));
  }

  // ---- What was written is read back ----

  /** Text without an opening brace. */
  predicate Plain(p: Part) {
    p.Literal? && p.s != "" && '{' !in p.s
  }

  /** `{...}` up to the first closing brace, with something else than a path inside. */
  predicate Braced(p: Part) {
    && p.Literal? && |p.s| >= 2 && p.s[0] == '{' && p.s[|p.s| - 1] == '}'
    && '}' !in p.s[..|p.s| - 1] && !IsPath(p.s[1..|p.s| - 1])
  }

  /** An opening brace that nothing closes. */
  predicate Unclosed(p: Part) {
    p.Literal? && p.s != "" && p.s[0] == '{' && '}' !in p.s
  }

  /** References resolve, plain texts are never two in a row, and an unclosed brace comes last. */
  predicate Normal(ps: seq<Part>, scope: set<string>)
    decreases |ps|
  {
    ps != [] ==>
      && Normal(ps[1..], scope)
      && (ps[0].Reference? ==> Resolvable(ps[0].e, scope))
      && (ps[0].Literal? ==> Plain(ps[0]) || Braced(ps[0]) || (Unclosed(ps[0]) && |ps| == 1))
      && (Plain(ps[0]) && |ps| > 1 ==> !Plain(ps[1]))
  }

  predicate Resolvable(e: Chain, scope: set<string>) {
    match e
    case Variable(n) => IsIdentifier(n) && n in scope
    case FieldAccess(b, f) => IsIdentifier(f) && Resolvable(b, scope)
  }

  lemma {:induction false} SplitPlain(s: string)
    requires '.' !in s
    ensures SplitDots(s) == [s]
  {
  }

  lemma {:induction false} SplitSnoc(s: string, f: string)
    requires '.' !in f
    ensures SplitDots(s + "." + f) == SplitDots(s) + [f]
    decreases |s|
  {
    var all := s + "." + f;
    var dot := Find(s, '.', 0);
    FindIs(all, '.', 0, dot);
    if dot == |s| {
      assert all[..dot] == s && all[dot + 1..] == f;
      SplitPlain(f);
    } else {
      assert all[..dot] == s[..dot] && all[dot + 1..] == s[dot + 1..] + "." + f;
      SplitSnoc(s[dot + 1..], f);
    }
  }

  lemma {:induction false} FindIs(s: string, c: char, from: nat, n: nat)
    requires from <= n < |s| && s[n] == c && forall i :: from <= i < n ==> s[i] != c
    ensures Find(s, c, from) == n
    decreases n - from
  {
    if from < n { FindIs(s, c, from + 1, n); }
  }

  lemma IdentifierIsPlain(s: string, c: char)
    requires IsIdentifier(s) && !IsAlphaNum(c)
    ensures c !in s
  {
  }

  /** The text of a chain splits into its names, and contains no brace. */
  lemma {:induction false} ChainReads(e: Chain, scope: set<string>)
    requires Resolvable(e, scope)
    ensures var segs := SplitDots(ChainText(e));
      ChainOf(segs) == e && segs[0] in scope && (forall i :: 0 <= i < |segs| ==> IsIdentifier(segs[i]))
    ensures '}' !in ChainText(e)
    decreases e
  {
    hide IsIdentifier;
    match e
    case Variable(n) =>
      IdentifierIsPlain(n, '.');
      IdentifierIsPlain(n, '}');
      SplitPlain(n);
    case FieldAccess(b, f) =>
      ChainReads(b, scope);
      IdentifierIsPlain(f, '.');
      IdentifierIsPlain(f, '}');
      SplitSnoc(ChainText(b), f);
      var segs := SplitDots(ChainText(b)) + [f];
      assert segs[..|segs| - 1] == SplitDots(ChainText(b));
  }

  lemma CutPlain(raw: string, scope: set<string>)
    requires Find(raw, '{', 0) == |raw|
    ensures Cut(raw, scope) == Parts(Text(raw))
  {
    hide Text, Find;
  }

  lemma CutUnclosed(raw: string, lit: string, tail: string, scope: set<string>)
    requires var open := Find(raw, '{', 0);
      open < |raw| && Find(raw, '}', open) == |raw| && lit == raw[..open] && tail == raw[open..]
    ensures Cut(raw, scope) == Parts(Text(lit) + [Literal(tail)])
  {
    hide Text, Find;
  }

  lemma CutAt(raw: string, lit: string, name: string, rest: string, scope: set<string>)
    requires var open := Find(raw, '{', 0);
      var close := Find(raw, '}', open);
      && open <= close < |raw| && raw[close] == '}' && raw[open] == '{'
      && lit == raw[..open] && name == raw[open + 1..close] && rest == raw[close + 1..]
    ensures Cut(raw, scope) == Joined(Text(lit), Group(name, scope), Cut(rest, scope))
  {
    hide Find, Group, Text, Joined;
  }

  lemma GroupReads(e: Chain, scope: set<string>)
    requires Resolvable(e, scope)
    ensures Group(ChainText(e), scope) == Some(Reference(e)) && '}' !in ChainText(e)
  {
    ChainReads(e, scope);
  }

  lemma GroupLies(lit: string, name: string, rest: string)
    requires '{' !in lit && '}' !in name
    ensures
      var raw := lit + ("{" + name + "}") + rest;
      var close := |lit| + 1 + |name|;
      && Find(raw, '{', 0) == |lit| < |raw| && Find(raw, '}', |lit|) == close < |raw|
      && raw[..|lit|] == lit && raw[|lit| + 1..close] == name && raw[close + 1..] == rest
  {
    hide Find;
    var raw := lit + ("{" + name + "}") + rest;
    var close := |lit| + 1 + |name|;
    FindIs(raw, '{', 0, |lit|);
    assert raw[|lit| + 1..close] == name;
    assert forall i :: |lit| < i < close ==> raw[i] == name[i - |lit| - 1];
    FindIs(raw, '}', |lit|, close);
  }

  lemma PartIs(e: Chain)
    ensures PartText(Reference(e)) == "{" + ChainText(e) + "}"
  {
    hide ChainText;
  }

  /** Cutting a reference off the front, after some text without braces. */
  lemma CutReference(lit: string, e: Chain, rest: string, scope: set<string>)
    requires Resolvable(e, scope) && '{' !in lit
    ensures Cut(lit + PartText(Reference(e)) + rest, scope) == Joined(Text(lit), Some(Reference(e)), Cut(rest, scope))
  {
    GroupReads(e, scope);
    PartIs(e);
    hide Group, Text, Resolvable, ChainText, Find, Cut, Joined, PartText;
    var name := ChainText(e);
    var raw := lit + ("{" + name + "}") + rest;
    GroupLies(lit, name, rest);
    CutAt(raw, lit, name, rest, scope);
  }

  lemma {:induction false} NoBrace(lit: string, scope: set<string>)
    requires '{' !in lit
    ensures Cut(lit, scope) == Parts(Text(lit))
  {
  }

  lemma RenderParts(ps: seq<Part>)
    ensures Render(ps) == if ps == [] then "" else PartText(ps[0]) + Render(ps[1..])
    ensures ps != [] && ps[0].Literal? ==> PartText(ps[0]) == ps[0].s
  {
  }

  lemma TextOf(s: string)
    ensures Text(s) == if s == "" then [] else [Literal(s)]
  {
  }

  /** Cutting a braced text off the front, after some text without braces. */
  lemma CutBraced(lit: string, p: Part, rest: string, scope: set<string>)
    requires Braced(p) && '{' !in lit
    ensures Cut(lit + p.s + rest, scope) == Joined(Text(lit), Some(p), Cut(rest, scope))
  {
    hide IsPath, Text, Find, Cut, Joined, Braced;
    var name := BracedParts(p);
    var raw := lit + ("{" + name + "}") + rest;
    GroupLies(lit, name, rest);
    CutAt(raw, lit, name, rest, scope);
  }

  lemma BracedParts(p: Part) returns (name: string)
    requires Braced(p)
    ensures p.Literal? && p.s == "{" + name + "}" && '}' !in name && !IsPath(name)
  {
    hide IsPath;
    name := p.s[1..|p.s| - 1];
    assert p.s == "{" + name + "}";
    assert forall i :: 0 <= i < |name| ==> name[i] == p.s[..|p.s| - 1][i + 1];
  }

  lemma CutOpen(lit: string, p: Part, scope: set<string>)
    requires Unclosed(p) && '{' !in lit
    ensures Cut(lit + p.s, scope) == Parts(Text(lit) + [p])
  {
    hide Text, Find, Cut;
    var raw := lit + p.s;
    FindIs(raw, '{', 0, |lit|);
    assert forall i :: |lit| <= i < |raw| ==> raw[i] == p.s[i - |lit|];
    CutUnclosed(raw, lit, p.s, scope);
  }

  /** Cutting one part that is not plain off the front. */
  lemma CutPart(lit: string, p: Part, rest: string, scope: set<string>)
    requires '{' !in lit
    requires (p.Reference? && Resolvable(p.e, scope)) || Braced(p) || (Unclosed(p) && rest == "")
    ensures Cut(lit + PartText(p) + rest, scope) == Joined(Text(lit), Some(p), Cut(rest, scope))
  {
    hide Cut, Text, Resolvable, IsPath;
    if p.Reference? {
      CutReference(lit, p.e, rest, scope);
    } else if Braced(p) {
      CutBraced(lit, p, rest, scope);
    } else {
      CutOpen(lit, p, scope);
      NoBrace("", scope);
      TextOf("");
      assert lit + p.s + "" == lit + p.s;
      assert Text(lit) + [p] + [] == Text(lit) + [p];
    }
  }

  lemma NormalFirst(ps: seq<Part>, scope: set<string>)
    requires Normal(ps, scope) && ps != []
    ensures Normal(ps[1..], scope)
    ensures !Plain(ps[0]) ==>
      (ps[0].Reference? && Resolvable(ps[0].e, scope)) || Braced(ps[0]) || (Unclosed(ps[0]) && ps[1..] == [])
    ensures Plain(ps[0]) ==> |ps| > 1 ==> !Plain(ps[1])
  {
    hide Braced, Unclosed, Resolvable;
  }

  /** Rendering normal parts and cutting gives them back ... */
  lemma {:induction false} NormalReadsBack(ps: seq<Part>, scope: set<string>)
    requires Normal(ps, scope)
    ensures Cut(Render(ps), scope) == Parts(ps)
    decreases |ps|
  {
    hide Cut, Render, Text, Normal, Resolvable, Plain, Braced, Unclosed, PartText;
    RenderParts(ps);
    if ps == [] {
      NoBrace("", scope);
      TextOf("");
    } else {
      NormalFirst(ps, scope);
      if !Plain(ps[0]) {
        NormalReadsBack(ps[1..], scope);
        RenderParts(ps[1..]);
        CutPart("", ps[0], Render(ps[1..]), scope);
        TextOf("");
        assert "" + PartText(ps[0]) + Render(ps[1..]) == Render(ps);
        assert [] + [ps[0]] + ps[1..] == ps;
      } else {
        PlainReadsBack(ps, scope);
      }
    }
  }

  lemma {:induction false} PlainReadsBack(ps: seq<Part>, scope: set<string>)
    requires ps != [] && Plain(ps[0]) && Normal(ps, scope)
    ensures Cut(Render(ps), scope) == Parts(ps)
    decreases |ps|, 0
  {
    hide Cut, Render, Text, Normal, Resolvable, Braced, Unclosed, PartText;
    RenderParts(ps);
    TextOf(ps[0].s);
    if |ps| == 1 {
      NoBrace(ps[0].s, scope);
      RenderParts(ps[1..]);
      assert ps[0].s + "" == ps[0].s && [ps[0]] == ps;
    } else {
      var tail := ps[1..];
      NormalFirst(ps, scope);
      NormalFirst(tail, scope);
      RenderParts(tail);
      NormalReadsBack(tail[1..], scope);
      RenderParts(tail[1..]);
      CutPart(ps[0].s, tail[0], Render(tail[1..]), scope);
      assert ps[0].s + (PartText(tail[0]) + Render(tail[1..])) == ps[0].s + PartText(tail[0]) + Render(tail[1..]);
      assert [ps[0]] + [tail[0]] + tail[1..] == ps;
    }
  }

  /** ... and what cutting gives is normal. */
  lemma {:induction false} CutIsNormal(raw: string, scope: set<string>)
    requires Cut(raw, scope).Parts?
    ensures Normal(Cut(raw, scope).parts, scope)
    decreases |raw|
  {
    hide Group, Text, Find, IsPath, Plain, Braced, Unclosed, Normal, Cut;
    var open := Find(raw, '{', 0);
    var close := Find(raw, '}', open);
    if open == |raw| {
      CutPlain(raw, scope);
      NormalNone(scope);
      NormalText(raw, [], scope);
      assert Text(raw) + [] == Text(raw);
    } else if close == |raw| {
      CutUnclosed(raw, raw[..open], raw[open..], scope);
      NormalOpen(raw[open..], scope);
      NormalText(raw[..open], [Literal(raw[open..])], scope);
    } else {
      var inside := raw[open + 1..close];
      CutAt(raw, raw[..open], inside, raw[close + 1..], scope);
      CutIsNormal(raw[close + 1..], scope);
      NormalJoined(raw[..open], inside, Cut(raw[close + 1..], scope).parts, scope);
    }
  }

  lemma NormalJoined(lit: string, inside: string, rest: seq<Part>, scope: set<string>)
    requires '{' !in lit && '}' !in inside && Normal(rest, scope) && Group(inside, scope).Some?
    ensures Normal(Text(lit) + [Group(inside, scope).value] + rest, scope)
  {
    hide Group, Text, IsPath, Plain, Normal;
    var p := Group(inside, scope).value;
    NormalGroup(inside, rest, scope);
    NormalText(lit, [p] + rest, scope);
    assert Text(lit) + [p] + rest == Text(lit) + ([p] + rest);
  }

  lemma NormalNone(scope: set<string>)
    ensures Normal([], scope)
  {
  }

  lemma NormalText(lit: string, rest: seq<Part>, scope: set<string>)
    requires '{' !in lit && (rest == [] || (Normal(rest, scope) && !Plain(rest[0])))
    ensures Normal(Text(lit) + rest, scope)
  {
    if lit == "" {
      assert Text(lit) + rest == rest;
    } else {
      assert (Text(lit) + rest)[1..] == rest;
    }
  }

  lemma NormalOpen(s: string, scope: set<string>)
    requires s != "" && s[0] == '{' && '}' !in s
    ensures Normal([Literal(s)], scope) && !Plain(Literal(s))
  {
    assert [Literal(s)][1..] == [];
  }

  lemma NormalGroup(inside: string, rest: seq<Part>, scope: set<string>)
    requires Normal(rest, scope) && '}' !in inside && Group(inside, scope).Some?
    ensures var p := Group(inside, scope).value; Normal([p] + rest, scope) && !Plain(p)
  {
    hide IsPath;
    var p := Group(inside, scope).value;
    assert ([p] + rest)[1..] == rest;
    if p.Reference? {
      PathGroup(inside, scope);
    } else {
      var s := p.s;
      assert s[1..|s| - 1] == inside && forall i :: 0 < i < |s| - 1 ==> s[i] == inside[i - 1];
    }
  }

  lemma PathGroup(inside: string, scope: set<string>)
    requires IsPath(inside) && SplitDots(inside)[0] in scope
    ensures Resolvable(ChainOf(SplitDots(inside)), scope)
  {
    hide IsIdentifier, Resolvable;
    var segs := SplitDots(inside);
    forall i | 0 <= i < |segs| ensures IsIdentifier(segs[i]) {
      assert IsIdentifier(SplitDots(inside)[i]);
    }
    PathResolves(segs, scope);
  }

  lemma {:induction false} PathResolves(segs: seq<string>, scope: set<string>)
    requires segs != [] && segs[0] in scope && forall i :: 0 <= i < |segs| ==> IsIdentifier(segs[i])
    ensures Resolvable(ChainOf(segs), scope)
    decreases |segs|
  {
    if |segs| > 1 { PathResolves(segs[..|segs| - 1], scope); }
  }

  /** Rendering parts and cutting gives them back if and only if they are normal. */
  lemma ReadsBack(ps: seq<Part>, scope: set<string>)
    ensures Cut(Render(ps), scope) == Parts(ps) <==> Normal(ps, scope)
  {
    if Normal(ps, scope) { NormalReadsBack(ps, scope); }
    if Cut(Render(ps), scope) == Parts(ps) { CutIsNormal(Render(ps), scope); }
  }

  /** A brace opened earlier hides a reference: this string is one literal part, not three. */
  lemma HiddenReference()
    ensures
      var ps := [Literal("{ "), Reference(Variable("x")), Literal("!")];
      Render(ps) == "{ {x}!" && Cut("{ {x}!", {"x"}) == Parts([Literal("{ {x}"), Literal("!")]) && !Normal(ps, {"x"})
  {
    var ps := [Literal("{ "), Reference(Variable("x")), Literal("!")];
    var qs := [Literal("{ {x}"), Literal("!")];
    HiddenTexts(ps, qs);
    assert qs[0].s[1..4] == " {x";
    SplitPlain(" {x");
    assert !IsPath(" {x") by { assert SplitDots(" {x")[0] == " {x"; }
    assert Braced(qs[0]) && Plain(qs[1]);
    assert qs[1..] == [Literal("!")] && qs[1..][1..] == [];
    assert Normal(qs[1..], {"x"});
    assert Normal(qs, {"x"});
    NormalReadsBack(qs, {"x"});
    assert !Plain(ps[0]) && !Braced(ps[0]);
  }

  lemma HiddenTexts(ps: seq<Part>, qs: seq<Part>)
    requires ps == [Literal("{ "), Reference(Variable("x")), Literal("!")] && qs == [Literal("{ {x}"), Literal("!")]
    ensures Render(ps) == "{ {x}!" == Render(qs)
  {
    assert ps[1..] == [Reference(Variable("x")), Literal("!")] && ps[1..][1..] == [Literal("!")] && ps[1..][1..][1..] == [];
    assert qs[1..] == [Literal("!")] && qs[1..][1..] == [];
    LiteralShows("!");
    assert Render(ps[1..]) == "{x}" + "!";
    assert "{ " + ("{x}" + "!") == "{ {x}!" == "{ {x}" + "!";
  }

  // ---- The parser ----

  method FindFrom(s: string, c: char, from: nat) returns (n: nat)
    requires from <= |s|
    ensures n == Find(s, c, from)
  {
    n := from;
    while n < |s| && s[n] != c
      invariant from <= n <= |s| && Find(s, c, from) == Find(s, c, n)
    {
      n := n + 1;
    }
  }

  lemma SplitStep(s: string, start: nat)
    requires start <= |s|
    ensures
      var dot := Find(s, '.', start);
      SplitDots(s[start..]) == if dot == |s| then [s[start..]] else [s[start..dot]] + SplitDots(s[dot + 1..])
  {
    var dot := Find(s, '.', start);
    FindShift(s, '.', start, start);
    if dot < |s| {
      assert s[start..][..dot - start] == s[start..dot] && s[start..][dot - start + 1..] == s[dot + 1..];
    }
  }

  method Segments(s: string) returns (segs: seq<string>)
    ensures segs == SplitDots(s)
  {
    hide SplitDots;
    segs := [];
    var start := 0;
    assert s[0..] == s;
    while true
      invariant start <= |s| && segs + SplitDots(s[start..]) == SplitDots(s)
      decreases |s| - start
    {
      SplitStep(s, start);
      var dot := FindFrom(s, '.', start);
      if dot == |s| { return segs + [s[start..]]; }
      ghost var rest := SplitDots(s[dot + 1..]);
      assert segs + ([s[start..dot]] + rest) == segs + [s[start..dot]] + rest;
      segs := segs + [s[start..dot]];
      start := dot + 1;
    }
  }

  lemma {:induction false} FindShift(s: string, c: char, base: nat, from: nat)
    requires base <= from <= |s|
    ensures Find(s[base..], c, from - base) == Find(s, c, from) - base
    decreases |s| - from
  {
    if from < |s| && s[from] != c { FindShift(s, c, base, from + 1); }
  }

  method LooksLikePath(segs: seq<string>) returns (b: bool)
    ensures b <==> forall i :: 0 <= i < |segs| ==> IsIdentifier(segs[i])
  {
    var i := 0;
    while i < |segs|
      invariant i <= |segs| && forall j :: 0 <= j < i ==> IsIdentifier(segs[j])
    {
      if segs[i] == "" || !IsAlpha(segs[i][0]) { return false; }
      var k := 0;
      while k < |segs[i]|
        invariant k <= |segs[i]| && forall m :: 0 <= m < k ==> IsAlphaNum(segs[i][m])
      {
        if !IsAlphaNum(segs[i][k]) { return false; }
        k := k + 1;
      }
      i := i + 1;
    }
    b := true;
  }

  method BuildChain(segs: seq<string>) returns (e: Chain)
    requires segs != []
    ensures e == ChainOf(segs)
  {
    e := Variable(segs[0]);
    var i := 1;
    while i < |segs|
      invariant 1 <= i <= |segs| && e == ChainOf(segs[..i])
    {
      assert segs[..i + 1][..i] == segs[..i];
      e := FieldAccess(e, segs[i]);
      i := i + 1;
    }
    assert segs[..i] == segs;
  }

  /** Slices of a tail are slices of the whole. */
  lemma Slices(s: string, base: nat, from: nat, to: nat)
    requires base <= from <= to <= |s|
    ensures s[base..][from - base..to - base] == s[from..to] && s[base..][from - base..] == s[from..]
  {
  }

  /** The three ways a tail of the text is cut. */
  lemma CutFrom(raw: string, scope: set<string>, pos: nat, open: nat, close: nat)
    requires pos <= |raw| && open == Find(raw, '{', pos) && close == Find(raw, '}', open)
    ensures open == |raw| ==> Cut(raw[pos..], scope) == Parts(Text(raw[pos..]))
    ensures open < |raw| && close == |raw|
            ==> Cut(raw[pos..], scope) == Parts(Text(raw[pos..open]) + [Literal(raw[open..])])
    ensures open < |raw| && close < |raw|
            ==> Cut(raw[pos..], scope) == Joined(Text(raw[pos..open]), Group(raw[open + 1..close], scope),
                                                 Cut(raw[close + 1..], scope))
  {
    hide Group, Text, Find, Joined, Cut;
    var here := raw[pos..];
    FindShift(raw, '{', pos, pos);
    FindShift(raw, '}', pos, open);
    if open == |raw| {
      CutPlain(here, scope);
    } else if close == |raw| {
      Slices(raw, pos, pos, open);
      Slices(raw, pos, open, |raw|);
      CutUnclosed(here, raw[pos..open], raw[open..], scope);
    } else {
      Slices(raw, pos, pos, open);
      Slices(raw, pos, open + 1, close);
      Slices(raw, pos, close + 1, |raw|);
      CutAt(here, raw[pos..open], raw[open + 1..close], raw[close + 1..], scope);
    }
  }

  /** One placeholder, from its text between the braces. */
  method ParseGroup(inside: string, scope: set<string>) returns (part: Option<Part>)
    ensures part == Group(inside, scope)
  {
    hide IsIdentifier;
    var segs := Segments(inside);
    var isPath := LooksLikePath(segs);
    if !isPath {
      part := Some(Literal("{" + inside + "}"));
    } else if segs[0] in scope {
      var e := BuildChain(segs);
      part := Some(Reference(e));
    } else {
      part := None;
    }
  }

  method ParseInterpolation(raw: string, scope: set<string>) returns (r: Outcome)
    ensures r == Cut(raw, scope)
  {
    hide Cut, Group, Find, Front, Text, Joined;
    var parts, pos := [], 0;
    assert raw[0..] == raw;
    FrontNone(Cut(raw, scope));
    while pos < |raw|
      invariant pos <= |raw| && Front(parts, Cut(raw[pos..], scope)) == Cut(raw, scope)
    {
      var open := FindFrom(raw, '{', pos);
      CutFrom(raw, scope, pos, open, Find(raw, '}', open));
      ghost var before := parts;
      TextAfter(before, raw[pos..open]);
      if open == |raw| {
        assert raw[pos..] == raw[pos..open];
        FrontEnd(before, Text(raw[pos..]));
        return Parts(parts + [Literal(raw[pos..])]);
      }
      if open > pos { parts := parts + [Literal(raw[pos..open])]; }
      var close := FindFrom(raw, '}', open);
      if close == |raw| {
        FrontEnd(before, Text(raw[pos..open]) + [Literal(raw[open..])]);
        Associate(before, Text(raw[pos..open]), [Literal(raw[open..])]);
        return Parts(parts + [Literal(raw[open..])]);
      }
      var part := ParseGroup(raw[open + 1..close], scope);
      FrontStep(before, Text(raw[pos..open]), part, Cut(raw[close + 1..], scope));
      if part.None? { return Unresolved; }
      parts := parts + [part.value];
      pos := close + 1;
    }
    NoBrace("", scope);
    assert raw[pos..] == "";
    FrontEnd(parts, Text(""));
    TextAfter(parts, "");
    r := Parts(parts);
  }

  lemma TextAfter(before: seq<Part>, s: string)
    ensures before + Text(s) == if s == "" then before else before + [Literal(s)]
  {
  }

  lemma Associate<T>(a: seq<T>, b: seq<T>, c: seq<T>)
    ensures a + (b + c) == a + b + c
  {
  }

  function Front(ps: seq<Part>, o: Outcome): Outcome {
    if o.Unresolved? then Unresolved else Parts(ps + o.parts)
  }

  lemma FrontNone(o: Outcome)
    ensures Front([], o) == o
  {
    if o.Parts? { assert [] + o.parts == o.parts; }
  }

  lemma FrontEnd(before: seq<Part>, ps: seq<Part>)
    ensures Front(before, Parts(ps)) == Parts(before + ps)
  {
  }

  lemma FrontStep(before: seq<Part>, text: seq<Part>, part: Option<Part>, o: Outcome)
    ensures Front(before, Joined(text, part, o)) == if part.None? then Unresolved else Front(before + text + [part.value], o)
  {
    if o.Parts? && part.Some? {
      assert before + (text + [part.value] + o.parts) == before + text + [part.value] + o.parts;
    }
  }
}
