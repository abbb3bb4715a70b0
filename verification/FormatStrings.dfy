/**
 Format strings: literal text with `{{` and `}}` escapes and placeholders `{}` or `{:spec}`.
 The parser accepts exactly the renderings of a list of literals and legal placeholders, and
 returns that list.
 */
module FormatStrings {
  /** `kind` is one of x X o b e f, or NUL; `precision` is -1 if not given. */
  datatype Placeholder = Placeholder(argIndex: nat, specifier: string, kind: char, precision: int)

  datatype Outcome = Ok(literals: seq<string>, placeholders: seq<Placeholder>) | Bad

  datatype Spec = Spec(kind: char, precision: int) | NoSpec

  const NUL := '\0'

  predicate Digits(s: string) {
    forall i :: 0 <= i < |s| ==> '0' <= s[i] <= '9'
  }

  function Number(s: string): nat
    requires Digits(s)
  {
    if s == "" then 0 else Number(s[..|s| - 1]) * 10 + (s[|s| - 1] as int - '0' as int)
  }

  /** A non-empty specifier. */
  function ParseSpec(spec: string): Spec
    requires spec != ""
  {
    var last := spec[|spec| - 1];
    if last == 'x' || last == 'X' || last == 'o' || last == 'b' || last == 'e' then Spec(last, -1)
    else if last == 'f' then
      if |spec| >= 2 && spec[0] == '.' then
        var digits := spec[1..|spec| - 1];
        if Digits(digits) then Spec('f', Number(digits)) else NoSpec
      else Spec('f', -1)
    else NoSpec
  }

  /** Characters up to, not including, the next closing brace. */
  function ToBrace(s: string): (n: nat)
    ensures n <= |s| && '}' !in s[..n] && (n < |s| ==> s[n] == '}')
  {
    if s == "" || s[0] == '}' then 0
    else
      var n := 1 + ToBrace(s[1..]);
      assert s[..n] == [s[0]] + s[1..][..n - 1];
      n
  }

  /** The inside of a placeholder, from after its opening brace: the placeholder and what follows it. */
  function Inside(s: string, arg: nat): (r: (bool, Placeholder, string))
    ensures r.0 ==> |r.2| < |s|
  {
    var none := Placeholder(arg, "", NUL, -1);
    if s != "" && s[0] == ':' then
      var n := ToBrace(s[1..]);
      var spec := s[1..n + 1];
      if spec == "" || ParseSpec(spec).NoSpec? || n + 1 == |s| then (false, none, "")
      else (true, Placeholder(arg, spec, ParseSpec(spec).kind, ParseSpec(spec).precision), s[n + 2..])
    else if s == "" || s[0] != '}' then (false, none, "")
    else (true, none, s[1..])
  }

  predicate Twice(s: string, c: char) {
    |s| >= 2 && s[0] == c && s[1] == c
  }

  /** What is parsed from `s` when `current` is the literal so far and `arg` the next index. */
  function Parse(s: string, current: string, arg: nat): Outcome
    decreases |s|
  {
    if s == "" then Ok([current], [])
    else if Twice(s, '{') || Twice(s, '}') then Parse(s[2..], current + [s[0]], arg)
    else if s[0] == '{' then
      var (ok, ph, rest) := Inside(s[1..], arg);
      if ok then Before(current, ph, Parse(rest, "", arg + 1)) else Bad
    else if s[0] == '}' then Bad
    else Parse(s[1..], current + [s[0]], arg)
  }

  function Before(literal: string, ph: Placeholder, o: Outcome): Outcome {
    if o.Bad? then Bad else Ok([literal] + o.literals, [ph] + o.placeholders)
  }

  // ---- Rendering ----

  function Escape(s: string): string {
    if s == "" then ""
    else (if s[0] == '{' || s[0] == '}' then [s[0], s[0]] else [s[0]]) + Escape(s[1..])
  }

  function Show(ph: Placeholder): string {
    "{" + (if ph.specifier == "" then "" else ":" + ph.specifier) + "}"
  }

  function Render(ls: seq<string>, ps: seq<Placeholder>): string
    requires |ls| == |ps| + 1
    decreases |ps|
  {
    if ps == [] then Escape(ls[0]) else Escape(ls[0]) + Show(ps[0]) + Render(ls[1..], ps[1..])
  }

  /** A placeholder that can be written: its kind and precision are those of its specifier. */
  predicate Legal(ph: Placeholder) {
    if ph.specifier == "" then ph.kind == NUL && ph.precision == -1
    else '}' !in ph.specifier && ParseSpec(ph.specifier) == Spec(ph.kind, ph.precision)
  }

  /** One literal more than placeholders, and the arguments in order. */
  predicate WellFormed(ls: seq<string>, ps: seq<Placeholder>, arg: nat) {
    |ls| == |ps| + 1 && forall i :: 0 <= i < |ps| ==> Legal(ps[i]) && ps[i].argIndex == arg + i
  }

  // ---- Both directions ----

  lemma {:induction false} LiteralReads(lit: string, rest: string, current: string, arg: nat)
    requires rest != "" ==> rest[0] == '{' && !Twice(rest, '{')
    ensures Parse(Escape(lit) + rest, current, arg) == Parse(rest, current + lit, arg)
    decreases |lit|
  {
    hide Parse;
    if lit == "" {
      assert Escape(lit) + rest == rest && current + lit == current;
    } else {
      var c := lit[0];
      LiteralReads(lit[1..], rest, current + [c], arg);
      assert current + [c] + lit[1..] == current + lit;
      var more := Escape(lit[1..]) + rest;
      if c == '{' || c == '}' {
        assert Escape(lit) + rest == [c, c] + more;
        ParseTwice(c, more, current, arg);
      } else {
        assert Escape(lit) + rest == [c] + more;
        ParsePlain(c, more, current, arg);
      }
    }
  }

  lemma ParseTwice(c: char, more: string, current: string, arg: nat)
    requires c == '{' || c == '}'
    ensures Parse([c, c] + more, current, arg) == Parse(more, current + [c], arg)
  {
    assert ([c, c] + more)[2..] == more;
  }

  lemma ParsePlain(c: char, more: string, current: string, arg: nat)
    requires c != '{' && c != '}'
    ensures Parse([c] + more, current, arg) == Parse(more, current + [c], arg)
  {
    assert ([c] + more)[1..] == more;
  }

  lemma {:induction false} ToBraceStops(s: string, rest: string)
    requires '}' !in s
    ensures ToBrace(s + ['}'] + rest) == |s|
    decreases |s|
  {
    var all := s + ['}'] + rest;
    if s != "" {
      assert all[1..] == s[1..] + ['}'] + rest;
      ToBraceStops(s[1..], rest);
    }
  }

  lemma InsideReads(ph: Placeholder, rest: string)
    requires Legal(ph)
    ensures Inside(Show(ph)[1..] + rest, ph.argIndex) == (true, ph, rest)
  {
    var s := Show(ph)[1..] + rest;
    if ph.specifier == "" {
      assert s == "}" + rest && s[1..] == rest;
    } else {
      assert s == ":" + ph.specifier + "}" + rest;
      assert s[1..] == ph.specifier + ['}'] + rest;
      ToBraceStops(ph.specifier, rest);
      assert s[1..|ph.specifier| + 1] == ph.specifier && s[|ph.specifier| + 2..] == rest;
    }
  }

  lemma ShownStarts(ph: Placeholder, tail: string)
    ensures var s := Show(ph) + tail;
      s != "" && s[0] == '{' && !Twice(s, '{') && s[1..] == Show(ph)[1..] + tail
  {
  }

  lemma ParseEnd(current: string, arg: nat)
    ensures Parse("", current, arg) == Ok([current], [])
  {
  }

  lemma ParseShown(ph: Placeholder, tail: string, current: string, arg: nat)
    requires Inside(Show(ph)[1..] + tail, arg) == (true, ph, tail)
    ensures Parse(Show(ph) + tail, current, arg) == Before(current, ph, Parse(tail, "", arg + 1))
  {
    hide Inside;
    ShownStarts(ph, tail);
    hide Show;
  }

  lemma {:induction false} RenderReads(ls: seq<string>, ps: seq<Placeholder>, arg: nat)
    requires WellFormed(ls, ps, arg)
    ensures Parse(Render(ls, ps), "", arg) == Ok(ls, ps)
    decreases |ps|
  {
    hide Escape, Inside, Parse;
    if ps == [] {
      ParseEnd("" + ls[0], arg);
      assert Render(ls, ps) == Escape(ls[0]) + "";
      LiteralReads(ls[0], "", "", arg);
      assert [ls[0]] == ls && "" + ls[0] == ls[0];
    } else {
      var tail := Render(ls[1..], ps[1..]);
      var rest := Show(ps[0]) + tail;
      assert Render(ls, ps) == Escape(ls[0]) + rest;
      ShownStarts(ps[0], tail);
      LiteralReads(ls[0], rest, "", arg);
      assert "" + ls[0] == ls[0];
      InsideReads(ps[0], tail);
      ParseShown(ps[0], tail, ls[0], arg);
      RenderReads(ls[1..], ps[1..], arg + 1);
      assert [ls[0]] + ls[1..] == ls && [ps[0]] + ps[1..] == ps;
    }
  }

  lemma {:induction false} EscapeAppend(a: string, b: string)
    ensures Escape(a + b) == Escape(a) + Escape(b)
    decreases |a|
  {
    if a == "" {
      assert a + b == b;
    } else {
      assert (a + b)[1..] == a[1..] + b;
      EscapeAppend(a[1..], b);
    }
  }

  /** What was consumed inside a placeholder is its rendering. */
  lemma InsideShows(s: string, arg: nat)
    requires Inside(s, arg).0
    ensures var (_, ph, rest) := Inside(s, arg);
      Legal(ph) && ph.argIndex == arg && "{" + s == Show(ph) + rest
  {
    var (_, ph, rest) := Inside(s, arg);
    if s[0] == ':' {
      var n := ToBrace(s[1..]);
      assert s[1..n + 1] == s[1..][..n] && s[n + 1] == s[1..][n] == '}';
      assert s == ":" + ph.specifier + "}" + rest;
    } else {
      assert s == "}" + rest;
    }
  }

  /** A successful parse of the rest, with the literal so far in front, renders to the text read. */
  lemma {:induction false} ParseRenders(s: string, current: string, arg: nat)
    requires Parse(s, current, arg).Ok?
    ensures var Ok(ls, ps) := Parse(s, current, arg);
      WellFormed(ls, ps, arg) && Render(ls, ps) == Escape(current) + s
    decreases |s|
  {
    hide Escape, Inside, Render, WellFormed;
    ParseUnfold(s, current, arg);
    hide Parse;
    if s == "" {
      RenderEnd(current, arg);
      assert Escape(current) + s == Escape(current);
    } else if Twice(s, '{') || Twice(s, '}') {
      ParseRenders(s[2..], current + [s[0]], arg);
      EscapeOne(current, s[0]);
      assert Escape(current) + s == Escape(current) + [s[0], s[0]] + s[2..];
    } else if s[0] == '{' {
      var (_, ph, rest) := Inside(s[1..], arg);
      InsideShows(s[1..], arg);
      ParseRenders(rest, "", arg + 1);
      PlaceholderRenders(current, ph, rest, arg);
      assert s == "{" + s[1..];
    } else {
      ParseRenders(s[1..], current + [s[0]], arg);
      EscapeOne(current, s[0]);
      assert Escape(current) + s == Escape(current) + [s[0]] + s[1..];
    }
  }

  lemma ParseUnfold(s: string, current: string, arg: nat)
    requires Parse(s, current, arg).Ok?
    ensures s == "" ==> Parse(s, current, arg) == Ok([current], [])
    ensures s != "" && (Twice(s, '{') || Twice(s, '}')) ==> Parse(s, current, arg) == Parse(s[2..], current + [s[0]], arg)
    ensures s != "" && !Twice(s, '{') && !Twice(s, '}') && s[0] == '{'
            ==> Inside(s[1..], arg).0
                && Parse(s, current, arg)
                == Before(current, Inside(s[1..], arg).1, Parse(Inside(s[1..], arg).2, "", arg + 1))
    ensures s != "" && !Twice(s, '{') && !Twice(s, '}') && s[0] != '{'
            ==> s[0] != '}' && Parse(s, current, arg) == Parse(s[1..], current + [s[0]], arg)
  {
    hide Inside;
  }

  lemma RenderEnd(current: string, arg: nat)
    ensures WellFormed([current], [], arg) && Render([current], []) == Escape(current)
  {
    hide Escape;
  }

  lemma EscapeOne(a: string, c: char)
    ensures Escape(a + [c]) == Escape(a) + (if c == '{' || c == '}' then [c, c] else [c])
  {
    EscapeAppend(a, [c]);
    assert [c][1..] == "" && Escape("") == "";
  }

  lemma PlaceholderRenders(current: string, ph: Placeholder, rest: string, arg: nat)
    requires Parse(rest, "", arg + 1).Ok? && Legal(ph) && ph.argIndex == arg
    requires var Ok(ls, ps) := Parse(rest, "", arg + 1); WellFormed(ls, ps, arg + 1) && Render(ls, ps) == Escape("") + rest
    ensures var Ok(ls, ps) := Before(current, ph, Parse(rest, "", arg + 1));
      WellFormed(ls, ps, arg) && Render(ls, ps) == Escape(current) + (Show(ph) + rest)
  {
    hide Parse, Legal, Show;
    var Ok(ls, ps) := Parse(rest, "", arg + 1);
    assert ([current] + ls)[1..] == ls && ([ph] + ps)[1..] == ps;
    assert Escape("") + rest == rest;
  }

  /** The parser accepts exactly the renderings, and returns what was rendered. */
  lemma ParseIsInverse(s: string, ls: seq<string>, ps: seq<Placeholder>)
    ensures Parse(s, "", 0) == Ok(ls, ps) <==> WellFormed(ls, ps, 0) && s == Render(ls, ps)
  {
    if Parse(s, "", 0) == Ok(ls, ps) {
      ParseRenders(s, "", 0);
      assert Escape("") + s == s;
    }
    if WellFormed(ls, ps, 0) && s == Render(ls, ps) {
      RenderReads(ls, ps, 0);
    }
  }

  // ---- What a specifier may be ----

  /** x, X, o, b and e by the last character; f with a precision if the specifier starts with a point. */
  lemma SpecifierIs(spec: string, kind: char, precision: int)
    requires spec != ""
    ensures
      var n := |spec| - 1;
      ParseSpec(spec) == Spec(kind, precision)
      <==> || (spec[n] == kind && kind in {'x', 'X', 'o', 'b', 'e'} && precision == -1)
           || (spec[n] == kind == 'f' && !(n > 0 && spec[0] == '.') && precision == -1)
           || (spec[n] == kind == 'f' && n > 0 && spec[0] == '.' && Digits(spec[1..n]) && precision == Number(spec[1..n]))
  {
  }

  function Decimal(n: nat): string {
    if n < 10 then ["0123456789"[n]] else Decimal(n / 10) + ["0123456789"[n % 10]]
  }

  lemma {:induction false} NumberOfDecimal(n: nat)
    ensures Digits(Decimal(n)) && Number(Decimal(n)) == n
    decreases n
  {
    var d := "0123456789"[n % 10];
    assert '0' <= d <= '9' && d as int - '0' as int == n % 10;
    if n < 10 {
      assert Decimal(n) == [d] && [d][..0] == "";
    } else {
      NumberOfDecimal(n / 10);
      assert Decimal(n)[..|Decimal(n)| - 1] == Decimal(n / 10);
    }
  }

  /** `.nf` is precision n, whatever n is. */
  lemma PrecisionReads(n: nat)
    ensures ParseSpec("." + Decimal(n) + "f") == Spec('f', n)
  {
    var spec := "." + Decimal(n) + "f";
    NumberOfDecimal(n);
    assert spec[1..|spec| - 1] == Decimal(n);
  }

  // ---- The parser ----

  datatype ParsedFormatString =
    ParsedFormatString(literals: seq<string>, placeholders: seq<Placeholder>, error: string)

  method ParseSpecifier(spec: string) returns (kind: char, precision: int, error: string)
    requires spec != ""
    ensures error == "" <==> !ParseSpec(spec).NoSpec?
    ensures error == "" ==> ParseSpec(spec) == Spec(kind, precision)
  {
    kind, precision, error := NUL, -1, "";
    var last := spec[|spec| - 1];
    if last == 'x' || last == 'X' || last == 'o' || last == 'b' {
      kind := last;
    } else if last == 'f' {
      kind := 'f';
      if |spec| >= 2 && spec[0] == '.' {
        var digits := spec[1..|spec| - 1];
        precision := 0;
        var d := 0;
        while d < |digits|
          invariant d <= |digits| && Digits(digits[..d]) && precision == Number(digits[..d])
        {
          if digits[d] < '0' || digits[d] > '9' { return kind, precision, "invalid precision in format specifier"; }
          assert digits[..d + 1][..d] == digits[..d];
          precision := precision * 10 + (digits[d] as int - '0' as int);
          d := d + 1;
        }
        assert digits[..d] == digits;
      }
    } else if last == 'e' {
      kind := 'e';
    } else {
      error := "unknown format specifier";
    }
  }

  function Front(ls: seq<string>, ps: seq<Placeholder>, o: Outcome): Outcome {
    if o.Bad? then Bad else Ok(ls + o.literals, ps + o.placeholders)
  }

  lemma FrontBefore(ls: seq<string>, ps: seq<Placeholder>, literal: string, ph: Placeholder, o: Outcome)
    ensures Front(ls, ps, Before(literal, ph, o)) == Front(ls + [literal], ps + [ph], o)
  {
    if o.Ok? {
      assert ls + ([literal] + o.literals) == ls + [literal] + o.literals;
      assert ps + ([ph] + o.placeholders) == ps + [ph] + o.placeholders;
    }
  }

  /** A placeholder, from after its opening brace at `start`; `i` is where parsing goes on. */
  method ParsePlaceholder(fmt: string, start: nat, arg: nat) returns (ph: Placeholder, i: nat, error: string)
    requires start <= |fmt|
    ensures i <= |fmt| && (error == "" ==> start < i)
    ensures error == "" <==> Inside(fmt[start..], arg).0
    ensures error == "" ==> Inside(fmt[start..], arg) == (true, ph, fmt[i..])
  {
    ph, i, error := Placeholder(arg, "", NUL, -1), start, "";
    ghost var s := fmt[start..];
    if i < |fmt| && fmt[i] == ':' {
      i := i + 1;
      var spec := "";
      while i < |fmt| && fmt[i] != '}'
        invariant start + 1 <= i <= |fmt| && spec == s[1..][..i - start - 1]
        invariant ToBrace(s[1..]) == i - start - 1 + ToBrace(fmt[i..])
      {
        assert fmt[i..][1..] == fmt[i + 1..];
        spec := spec + [fmt[i]];
        i := i + 1;
      }
      assert s[1..ToBrace(s[1..]) + 1] == spec;
      if spec == "" { return ph, i, "empty format specifier after ':'"; }
      var kind, precision, bad := ParseSpecifier(spec);
      if bad != "" { return ph, i, bad; }
      ph := Placeholder(arg, spec, kind, precision);
    }
    if i >= |fmt| || fmt[i] != '}' { return ph, i, "unterminated format placeholder, expected '}'"; }
    i := i + 1;
  }

  method ParseFormat(fmt: string) returns (r: ParsedFormatString)
    ensures r.error == "" <==> Parse(fmt, "", 0).Ok?
    ensures r.error == "" ==> Parse(fmt, "", 0) == Ok(r.literals, r.placeholders)
  {
    var literals, placeholders, current, argIndex, i := [], [], "", 0, 0;
    FrontNothing(Parse(fmt, "", 0));
    while i < |fmt|
      invariant i <= |fmt| && argIndex >= 0
      invariant Front(literals, placeholders, Parse(fmt[i..], current, argIndex)) == Parse(fmt, "", 0)
    {
      var c := fmt[i];
      ghost var s := fmt[i..];
      assert s[1..] == fmt[i + 1..];
      if i + 1 < |fmt| && (c == '{' || c == '}') && fmt[i + 1] == c {
        assert s[2..] == fmt[i + 2..];
        current := current + [c];
        i := i + 2;
      } else if c == '{' {
        var ph, next, error := ParsePlaceholder(fmt, i + 1, argIndex);
        if error != "" { return ParsedFormatString(literals + [current], placeholders, error); }
        FrontBefore(literals, placeholders, current, ph, Parse(fmt[next..], "", argIndex + 1));
        literals, placeholders, current := literals + [current], placeholders + [ph], "";
        argIndex, i := argIndex + 1, next;
      } else if c == '}' {
        return ParsedFormatString(literals, placeholders, "unexpected '}' in format string");
      } else {
        current := current + [c];
        i := i + 1;
      }
    }
    r := ParsedFormatString(literals + [current], placeholders, "");
    assert placeholders + [] == placeholders;
  }

  lemma FrontNothing(o: Outcome)
    ensures Front([], [], o) == o
  {
    if o.Ok? { assert [] + o.literals == o.literals && [] + o.placeholders == o.placeholders; }
  }
}
