/**
 SQL text with `?` placeholders. A statement is described by its pieces, plain text and
 holes, in the order in which they stand in the text; the generators collect the bound
 expressions separately, clause by clause. This module says when the two orders agree.
 */
module SqlPlaceholders {
  /** `Bound` is any expression whose value is supplied at run time. */
  datatype SqlExpr =
    | Field(name: string)
    | Ops(op: string, left: SqlExpr, right: SqlExpr)
    | IntConst(text: string)
    | FloatConst(text: string)
    | Bound(id: nat)

  datatype Step =
    | Where(e: SqlExpr)
    | OrderBy(e: SqlExpr)
    | Limit(e: SqlExpr)
    | Join(table: string, e: SqlExpr)
    | First
    | Set(fields: seq<(string, SqlExpr)>)

  datatype Piece = Chars(s: string) | Hole(e: SqlExpr)

  function PieceText(p: Piece): string {
    if p.Chars? then p.s else "?"
  }

  function PieceHoles(p: Piece): seq<SqlExpr> {
    if p.Hole? then [p.e] else []
  }

  function Text(ps: seq<Piece>): string {
    if ps == [] then "" else Text(ps[..|ps| - 1]) + PieceText(ps[|ps| - 1])
  }

  function Holes(ps: seq<Piece>): seq<SqlExpr> {
    if ps == [] then [] else Holes(ps[..|ps| - 1]) + PieceHoles(ps[|ps| - 1])
  }

  lemma {:induction false} Concat(a: seq<Piece>, b: seq<Piece>)
    ensures Text(a + b) == Text(a) + Text(b) && Holes(a + b) == Holes(a) + Holes(b)
    decreases |b|
  {
    hide PieceText, PieceHoles;
    if b == [] {
      assert a + b == a;
      assert Text(a) + "" == Text(a) && Holes(a) + [] == Holes(a);
    } else {
      var init, last := b[..|b| - 1], b[|b| - 1];
      assert (a + b)[..|a + b| - 1] == a + init;
      Concat(a, init);
      assert Text(a) + Text(init) + PieceText(last) == Text(a) + (Text(init) + PieceText(last));
      assert Holes(a) + Holes(init) + PieceHoles(last) == Holes(a) + (Holes(init) + PieceHoles(last));
    }
  }

  lemma Single(p: Piece)
    ensures Text([p]) == (if p.Chars? then p.s else "?") && Holes([p]) == (if p.Hole? then [p.e] else [])
    ensures Text([]) == "" && Holes([]) == []
  {
    assert [p][..0] == [];
  }

  // ---- Alignment of text and holes ----

  /** The positions of the question marks in a text. */
  function Marks(s: string): seq<nat> {
    if s == "" then [] else Marks(s[..|s| - 1]) + (if s[|s| - 1] == '?' then [|s| - 1] else [])
  }

  /** The positions at which the holes stand. */
  function HolePositions(ps: seq<Piece>): seq<nat> {
    if ps == [] then []
    else HolePositions(ps[..|ps| - 1]) + (if ps[|ps| - 1].Hole? then [|Text(ps[..|ps| - 1])|] else [])
  }

  /** Only holes are written as question marks. */
  predicate Clean(ps: seq<Piece>) {
    forall i :: 0 <= i < |ps| && ps[i].Chars? ==> '?' !in ps[i].s
  }

  lemma {:induction false} MarksPlain(s: string, t: string)
    requires '?' !in t
    ensures Marks(s + t) == Marks(s)
    decreases |t|
  {
    if t == "" {
      assert s + t == s;
    } else {
      assert (s + t)[..|s + t| - 1] == s + t[..|t| - 1];
      MarksPlain(s, t[..|t| - 1]);
    }
  }

  /** The i-th question mark of the text is the i-th hole. */
  lemma {:induction false} MarksAreHoles(ps: seq<Piece>)
    requires Clean(ps)
    ensures Marks(Text(ps)) == HolePositions(ps) && |HolePositions(ps)| == |Holes(ps)|
    decreases |ps|
  {
    if ps != [] {
      var init, last := ps[..|ps| - 1], ps[|ps| - 1];
      MarksAreHoles(init);
      if last.Chars? {
        MarksPlain(Text(init), last.s);
      } else {
        assert Text(ps)[..|Text(ps)| - 1] == Text(init);
      }
    }
  }

  // ---- Expressions ----

  function SqlOperator(op: string): string {
    if op == "==" then "=" else if op == "!=" then "<>" else if op == "&&" then "AND" else if op == "||" then "OR" else op
  }

  function Pieces(e: SqlExpr): seq<Piece> {
    match e
    case Field(n) => [Chars(n)]
    case Ops(op, l, r) => Pieces(l) + [Chars(" " + SqlOperator(op) + " ")] + Pieces(r)
    case IntConst(t) => [Chars(t)]
    case FloatConst(t) => [Chars(t)]
    case Bound(_) => [Hole(e)]
  }

  lemma OpsText(op: string, l: SqlExpr, r: SqlExpr)
    ensures Text(Pieces(Ops(op, l, r))) == Text(Pieces(l)) + " " + SqlOperator(op) + " " + Text(Pieces(r))
    ensures Holes(Pieces(Ops(op, l, r))) == Holes(Pieces(l)) + Holes(Pieces(r))
  {
    var mid := Chars(" " + SqlOperator(op) + " ");
    Single(mid);
    Concat(Pieces(l), [mid]);
    Concat(Pieces(l) + [mid], Pieces(r));
    hide Text, Holes, SqlOperator;
    var a, o, b := Text(Pieces(l)), SqlOperator(op), Text(Pieces(r));
    assert a + (" " + o + " ") + b == a + " " + o + " " + b;
    assert Holes(Pieces(l)) + [] == Holes(Pieces(l));
  }

  method ExprToSQL(e: SqlExpr, params: seq<SqlExpr>) returns (sql: string, params': seq<SqlExpr>)
    ensures sql == Text(Pieces(e)) && params' == params + Holes(Pieces(e))
    decreases e
  {
    hide SqlOperator, Text, Holes;
    params' := params;
    match e
    case Field(n) =>
      Single(Chars(n));
      sql := n;
    case Ops(op, l, r) =>
      var left, right;
      left, params' := ExprToSQL(l, params');
      right, params' := ExprToSQL(r, params');
      OpsText(op, l, r);
      sql := left + " " + SqlOperator(op) + " " + right;
    case IntConst(t) =>
      Single(Chars(t));
      sql := t;
    case FloatConst(t) =>
      Single(Chars(t));
      sql := t;
    case Bound(_) =>
      Single(Hole(e));
      sql, params' := "?", params + [e];
  }

  // ---- Clauses, in the order of the text ----

  function WherePieces(steps: seq<Step>): seq<Piece> {
    if steps == [] then []
    else
      var before := WherePieces(steps[..|steps| - 1]);
      var last := steps[|steps| - 1];
      if !last.Where? then before
      else (if before == [] then [] else before + [Chars(" AND ")]) + Pieces(last.e)
  }

  function JoinPieces(steps: seq<Step>): seq<Piece> {
    if steps == [] then []
    else
      var before := JoinPieces(steps[..|steps| - 1]);
      var last := steps[|steps| - 1];
      if last.Join? then before + [Chars(" JOIN " + last.table + " ON ")] + Pieces(last.e) else before
  }

  /** Only the last `order_by` is in the text ... */
  function OrderPieces(steps: seq<Step>): seq<Piece> {
    if steps == [] then []
    else if steps[|steps| - 1].OrderBy? then Pieces(steps[|steps| - 1].e)
    else OrderPieces(steps[..|steps| - 1])
  }

  /** ... and only the last `limit` or `first`. */
  function LimitPieces(steps: seq<Step>): seq<Piece> {
    if steps == [] then []
    else LimitPiece(steps[|steps| - 1], LimitPieces(steps[..|steps| - 1]))
  }

  function LimitPiece(s: Step, before: seq<Piece>): seq<Piece> {
    if s.Limit? then (if s.e.IntConst? then [Chars(s.e.text)] else [Hole(s.e)])
    else if s.First? then [Chars("1")]
    else before
  }

  function SetFields(fields: seq<(string, SqlExpr)>, before: seq<Piece>): seq<Piece> {
    if fields == [] then before
    else
      var prior := SetFields(fields[..|fields| - 1], before);
      var f := fields[|fields| - 1];
      (if prior == [] then [] else prior + [Chars(", ")]) + [Chars(f.0 + " = ")] + Pieces(f.1)
  }

  function SetPieces(steps: seq<Step>): seq<Piece> {
    if steps == [] then []
    else
      var before := SetPieces(steps[..|steps| - 1]);
      if steps[|steps| - 1].Set? then SetFields(steps[|steps| - 1].fields, before) else before
  }

  /** What is recorded for ORDER BY and LIMIT: every step, also the ones overwritten in the text. */
  function OrderRecorded(steps: seq<Step>): seq<SqlExpr> {
    if steps == [] then []
    else OrderRecorded(steps[..|steps| - 1]) + (if steps[|steps| - 1].OrderBy? then Holes(Pieces(steps[|steps| - 1].e)) else [])
  }

  function LimitRecorded(steps: seq<Step>): seq<SqlExpr> {
    if steps == [] then []
    else
      var last := steps[|steps| - 1];
      LimitRecorded(steps[..|steps| - 1]) + (if last.Limit? && !last.e.IntConst? then [last.e] else [])
  }

  function Clause(keyword: string, ps: seq<Piece>): seq<Piece> {
    if ps == [] then [] else [Chars(keyword)] + ps
  }

  function SelectPieces(table: string, steps: seq<Step>): seq<Piece> {
    [Chars("SELECT * FROM " + table)] + JoinPieces(steps) + Clause(" WHERE ", WherePieces(steps))
    + Clause(" ORDER BY ", OrderPieces(steps)) + Clause(" LIMIT ", LimitPieces(steps))
  }

  function UpdatePieces(table: string, steps: seq<Step>): seq<Piece> {
    [Chars("UPDATE " + table)] + Clause(" SET ", SetPieces(steps)) + Clause(" WHERE ", WherePieces(steps))
  }

  // ---- Clauses are empty exactly when nothing was written ----

  /** Names and constants are written with at least one character. */
  predicate Visible(e: SqlExpr) {
    match e
    case Field(n) => n != ""
    case Ops(_, _, _) => true
    case IntConst(t) => t != ""
    case FloatConst(t) => t != ""
    case Bound(_) => true
  }

  predicate AllVisible(steps: seq<Step>) {
    forall i :: 0 <= i < |steps| ==>
      && (steps[i].Where? || steps[i].OrderBy? || steps[i].Limit? ==> Visible(steps[i].e))
  }

  lemma {:induction false} VisibleText(e: SqlExpr)
    requires Visible(e)
    ensures Text(Pieces(e)) != "" && Pieces(e) != []
  {
    match e
    case Ops(op, l, r) =>
      var mid := Chars(" " + SqlOperator(op) + " ");
      Single(mid);
      Concat(Pieces(l), [mid]);
      Concat(Pieces(l) + [mid], Pieces(r));
    case Field(n) => Single(Chars(n));
    case IntConst(t) => Single(Chars(t));
    case FloatConst(t) => Single(Chars(t));
    case Bound(_) => Single(Hole(e));
  }

  lemma {:induction false} WhereEmpty(steps: seq<Step>)
    requires AllVisible(steps)
    ensures Text(WherePieces(steps)) == "" <==> WherePieces(steps) == []
    decreases |steps|
  {
    if steps != [] {
      var last := steps[|steps| - 1];
      WhereEmpty(steps[..|steps| - 1]);
      if last.Where? {
        var before := WherePieces(steps[..|steps| - 1]);
        var front := if before == [] then [] else before + [Chars(" AND ")];
        VisibleText(last.e);
        Concat(front, Pieces(last.e));
      }
    }
  }

  lemma {:induction false} OrderEmpty(steps: seq<Step>)
    requires AllVisible(steps)
    ensures Text(OrderPieces(steps)) == "" <==> OrderPieces(steps) == []
    ensures Text(LimitPieces(steps)) == "" <==> LimitPieces(steps) == []
    decreases |steps|
  {
    if steps != [] {
      var last := steps[|steps| - 1];
      OrderEmpty(steps[..|steps| - 1]);
      if last.OrderBy? { VisibleText(last.e); }
      if last.Limit? {
        VisibleText(last.e);
        if last.e.IntConst? { Single(Chars(last.e.text)); } else { Single(Hole(last.e)); }
      }
      if last.First? { Single(Chars("1")); }
    }
  }

  // ---- Generators ----

  datatype Statement = Statement(sql: string, params: seq<SqlExpr>)

  function SelectRecorded(steps: seq<Step>): seq<SqlExpr> {
    Holes(JoinPieces(steps)) + Holes(WherePieces(steps)) + OrderRecorded(steps) + LimitRecorded(steps)
  }

  lemma ClauseText(keyword: string, ps: seq<Piece>)
    ensures Text(Clause(keyword, ps)) == (if ps == [] then "" else keyword + Text(ps))
    ensures Holes(Clause(keyword, ps)) == Holes(ps)
  {
    Single(Chars(keyword));
    Concat([Chars(keyword)], ps);
  }

  /** One more `where` step. */
  method AddWhere(clause: string, params: seq<SqlExpr>, ghost steps: seq<Step>, e: SqlExpr)
    returns (clause': string, params': seq<SqlExpr>)
    requires AllVisible(steps + [Where(e)])
    requires clause == Text(WherePieces(steps)) && params == Holes(WherePieces(steps))
    ensures clause' == Text(WherePieces(steps + [Where(e)])) && params' == Holes(WherePieces(steps + [Where(e)]))
  {
    hide Text, Holes;
    assert (steps + [Where(e)])[..|steps|] == steps;
    assert AllVisible(steps) by {
      assert forall i :: 0 <= i < |steps| ==> (steps + [Where(e)])[i] == steps[i];
    }
    WhereEmpty(steps);
    Single(Chars(" AND "));
    Concat(WherePieces(steps), [Chars(" AND ")]);
    Concat(if WherePieces(steps) == [] then [] else WherePieces(steps) + [Chars(" AND ")], Pieces(e));
    clause' := clause;
    if clause' != "" { clause' := clause' + " AND "; }
    var sql;
    sql, params' := ExprToSQL(e, params);
    clause' := clause' + sql;
  }

  /** One more `join` step. */
  method AddJoin(clause: string, params: seq<SqlExpr>, ghost steps: seq<Step>, table: string, e: SqlExpr)
    returns (clause': string, params': seq<SqlExpr>)
    requires clause == Text(JoinPieces(steps)) && params == Holes(JoinPieces(steps))
    ensures clause' == Text(JoinPieces(steps + [Join(table, e)])) && params' == Holes(JoinPieces(steps + [Join(table, e)]))
  {
    hide Text, Holes;
    assert (steps + [Join(table, e)])[..|steps|] == steps;
    var on := Chars(" JOIN " + table + " ON ");
    Single(on);
    Concat(JoinPieces(steps), [on]);
    Concat(JoinPieces(steps) + [on], Pieces(e));
    var cond;
    cond, params' := ExprToSQL(e, params);
    assert clause + (" JOIN " + table + " ON ") + cond == clause + (" JOIN " + table + " ON " + cond);
    clause' := clause + (" JOIN " + table + " ON " + cond);
  }

  /** The clauses collected so far. */
  datatype Select = Select(joinClause: string, whereClause: string, orderByClause: string, limitClause: string,
                           joinParams: seq<SqlExpr>, whereParams: seq<SqlExpr>, orderParams: seq<SqlExpr>,
                           limitParams: seq<SqlExpr>)

  ghost predicate Collected(c: Select, steps: seq<Step>) {
    && c.joinClause == Text(JoinPieces(steps)) && c.joinParams == Holes(JoinPieces(steps))
    && c.whereClause == Text(WherePieces(steps)) && c.whereParams == Holes(WherePieces(steps))
    && c.orderByClause == Text(OrderPieces(steps)) && c.orderParams == OrderRecorded(steps)
    && c.limitClause == Text(LimitPieces(steps)) && c.limitParams == LimitRecorded(steps)
  }

  lemma OtherClauses(steps: seq<Step>, s: Step)
    ensures var more := steps + [s];
      && (!s.Join? ==> JoinPieces(more) == JoinPieces(steps)) && (!s.Where? ==> WherePieces(more) == WherePieces(steps))
      && (!s.OrderBy? ==> OrderPieces(more) == OrderPieces(steps) && OrderRecorded(more) == OrderRecorded(steps))
      && (!s.Limit? ==> LimitRecorded(more) == LimitRecorded(steps))
      && (!s.Limit? && !s.First? ==> LimitPieces(more) == LimitPieces(steps))
      && (s.OrderBy? ==> OrderPieces(more) == Pieces(s.e) && OrderRecorded(more) == OrderRecorded(steps) + Holes(Pieces(s.e)))
      && LimitPieces(more) == LimitPiece(s, LimitPieces(steps))
      && (s.Limit? ==> LimitRecorded(more) == LimitRecorded(steps) + (if s.e.IntConst? then [] else [s.e]))
  {
    hide Holes, Pieces;
    var more := steps + [s];
    assert more[..|more| - 1] == steps && more[|more| - 1] == s;
  }

  method CollectStep(c: Select, ghost steps: seq<Step>, s: Step) returns (c': Select)
    requires Collected(c, steps) && AllVisible(steps + [s])
    ensures Collected(c', steps + [s])
  {
    hide Text, Holes, Pieces, JoinPieces, WherePieces, OrderPieces, LimitPieces, OrderRecorded, LimitRecorded, AllVisible;
    OtherClauses(steps, s);
    c' := c;
    match s
    case Where(e) =>
      var clause, params := AddWhere(c.whereClause, c.whereParams, steps, e);
      c' := c.(whereClause := clause, whereParams := params);
    case OrderBy(e) =>
      var clause, params := ExprToSQL(e, c.orderParams);
      c' := c.(orderByClause := clause, orderParams := params);
    case Limit(e) =>
      if e.IntConst? {
        Single(Chars(e.text));
        c' := c.(limitClause := e.text);
      } else {
        Single(Hole(e));
        c' := c.(limitClause := "?", limitParams := c.limitParams + [e]);
      }
    case Join(table, e) =>
      var clause, params := AddJoin(c.joinClause, c.joinParams, steps, table, e);
      c' := c.(joinClause := clause, joinParams := params);
    case First =>
      Single(Chars("1"));
      c' := c.(limitClause := "1");
    case Set(_) =>
  }

  function Suffix(keyword: string, clause: string): string {
    if clause == "" then "" else keyword + clause
  }

  /** A clause is left out if nothing was written for it. */
  method AppendClause(sql: string, keyword: string, clause: string) returns (r: string)
    ensures r == sql + Suffix(keyword, clause)
  {
    r := sql;
    if clause != "" {
      r := r + keyword + clause;
      assert r == sql + (keyword + clause);
    }
  }

  method GenerateSelect(table: string, steps: seq<Step>) returns (r: Statement)
    requires AllVisible(steps)
    ensures r.sql == Text(SelectPieces(table, steps)) && r.params == SelectRecorded(steps)
  {
    hide Text, Holes, Pieces, JoinPieces, WherePieces, OrderPieces, LimitPieces, OrderRecorded, LimitRecorded;
    var c := Select("", "", "", "", [], [], [], []);
    NothingCollected();
    var i := 0;
    while i < |steps|
      invariant i <= |steps| && Collected(c, steps[..i])
    {
      assert steps[..i] + [steps[i]] == steps[..i + 1];
      c := CollectStep(c, steps[..i], steps[i]);
      i := i + 1;
    }
    assert steps[..i] == steps;
    var sql := "SELECT * FROM " + table + c.joinClause;
    sql := AppendClause(sql, " WHERE ", c.whereClause);
    sql := AppendClause(sql, " ORDER BY ", c.orderByClause);
    sql := AppendClause(sql, " LIMIT ", c.limitClause);
    hide SelectPieces, Suffix;
    SelectText(table, steps);
    r := Statement(sql, c.joinParams + c.whereParams + c.orderParams + c.limitParams);
  }

  lemma NothingCollected()
    ensures Collected(Select("", "", "", "", [], [], [], []), [])
  {
  }

  lemma Concat5(a: seq<Piece>, b: seq<Piece>, c: seq<Piece>, d: seq<Piece>, e: seq<Piece>)
    ensures Text(a + b + c + d + e) == Text(a) + Text(b) + Text(c) + Text(d) + Text(e)
    ensures Holes(a + b + c + d + e) == Holes(a) + Holes(b) + Holes(c) + Holes(d) + Holes(e)
  {
    hide Text, Holes;
    Concat(a, b);
    Concat(a + b, c);
    Concat(a + b + c, d);
    Concat(a + b + c + d, e);
  }

  lemma SelectText(table: string, steps: seq<Step>)
    requires AllVisible(steps)
    ensures
      Text(SelectPieces(table, steps))
      == "SELECT * FROM " + table + Text(JoinPieces(steps)) + Suffix(" WHERE ", Text(WherePieces(steps)))
         + Suffix(" ORDER BY ", Text(OrderPieces(steps))) + Suffix(" LIMIT ", Text(LimitPieces(steps)))
    ensures Holes(SelectPieces(table, steps))
         == Holes(JoinPieces(steps)) + Holes(WherePieces(steps)) + Holes(OrderPieces(steps)) + Holes(LimitPieces(steps))
  {
    WhereEmpty(steps);
    OrderEmpty(steps);
    hide Text, Holes, JoinPieces, WherePieces, OrderPieces, LimitPieces, AllVisible, Clause;
    Single(Chars("SELECT * FROM " + table));
    ClauseText(" WHERE ", WherePieces(steps));
    ClauseText(" ORDER BY ", OrderPieces(steps));
    ClauseText(" LIMIT ", LimitPieces(steps));
    Concat5([Chars("SELECT * FROM " + table)], JoinPieces(steps), Clause(" WHERE ", WherePieces(steps)),
            Clause(" ORDER BY ", OrderPieces(steps)), Clause(" LIMIT ", LimitPieces(steps)));
    assert [] + Holes(JoinPieces(steps)) == Holes(JoinPieces(steps));
  }

  // ---- As it is written ----

  function Shown(e: SqlExpr): string {
    Text(Pieces(e))
  }

  /** `==`, `!=`, `&&` and `||` have other names in SQL, all other operators keep theirs. */
  lemma OperatorsShown(l: SqlExpr, r: SqlExpr, op: string)
    ensures Shown(Ops("==", l, r)) == Shown(l) + " " + "=" + " " + Shown(r)
    ensures Shown(Ops("!=", l, r)) == Shown(l) + " " + "<>" + " " + Shown(r)
    ensures Shown(Ops("&&", l, r)) == Shown(l) + " " + "AND" + " " + Shown(r)
    ensures Shown(Ops("||", l, r)) == Shown(l) + " " + "OR" + " " + Shown(r)
    ensures op != "==" && op != "!=" && op != "&&" && op != "||" ==>
      Shown(Ops(op, l, r)) == Shown(l) + " " + op + " " + Shown(r)
  {
    hide Text, Pieces, SqlOperator;
    OperatorNames(op);
    OpsText("==", l, r);
    OpsText("!=", l, r);
    OpsText("&&", l, r);
    OpsText("||", l, r);
    OpsText(op, l, r);
  }

  lemma OperatorNames(op: string)
    ensures SqlOperator("==") == "=" && SqlOperator("!=") == "<>" && SqlOperator("&&") == "AND" && SqlOperator("||") == "OR"
    ensures op != "==" && op != "!=" && op != "&&" && op != "||" ==> SqlOperator(op) == op
  {
    assert "!="[0] != "=="[0] && "&&"[0] != "=="[0] && "||"[0] != "=="[0];
    assert "&&"[0] != "!="[0] && "||"[0] != "!="[0] && "||"[0] != "&&"[0];
  }

  lemma Leaves(n: string, k: nat)
    ensures Shown(Field(n)) == n && Shown(IntConst(n)) == n && Shown(FloatConst(n)) == n && Shown(Bound(k)) == "?"
  {
    Single(Chars(n));
    Single(Hole(Bound(k)));
  }

  /** One more step of each kind, in the text of its clause. */
  lemma StepShown(steps: seq<Step>, s: Step)
    ensures var more := steps + [s];
      && (s.Where? ==> Text(WherePieces(more))
                       == if WherePieces(steps) == [] then Shown(s.e) else Text(WherePieces(steps)) + " AND " + Shown(s.e))
      && (s.Join? ==> Text(JoinPieces(more)) == Text(JoinPieces(steps)) + (" JOIN " + s.table + " ON ") + Shown(s.e))
      && (s.OrderBy? ==> Text(OrderPieces(more)) == Shown(s.e))
      && (s.Limit? ==> Text(LimitPieces(more)) == if s.e.IntConst? then s.e.text else "?")
      && (s.First? ==> Text(LimitPieces(more)) == "1")
  {
    assert (steps + [s])[..|steps|] == steps;
    match s
    case Where(e) =>
      Single(Chars(" AND "));
      Concat(WherePieces(steps), [Chars(" AND ")]);
      Concat(if WherePieces(steps) == [] then [] else WherePieces(steps) + [Chars(" AND ")], Pieces(e));
    case Join(t, e) =>
      var on := Chars(" JOIN " + t + " ON ");
      Single(on);
      Concat(JoinPieces(steps), [on]);
      Concat(JoinPieces(steps) + [on], Pieces(e));
    case Limit(e) =>
      Single(Chars(if e.IntConst? then e.text else ""));
      Single(Hole(e));
    case First => Single(Chars("1"));
    case _ =>
  }

  lemma SelectClauses(u: string, on: SqlExpr, x: SqlExpr, y: SqlExpr, key: SqlExpr, n: string)
    requires Visible(x)
    ensures
      var steps := [Where(x), OrderBy(key), Limit(IntConst(n)), Join(u, on), Where(y)];
      && Text(WherePieces(steps)) == Shown(x) + " AND " + Shown(y) && Text(OrderPieces(steps)) == Shown(key)
      && Text(LimitPieces(steps)) == n && Text(JoinPieces(steps)) == "" + (" JOIN " + u + " ON ") + Shown(on)
  {
    hide Text, Holes, Pieces, JoinPieces, WherePieces, OrderPieces, LimitPieces, OrderRecorded, LimitRecorded, LimitPiece, Shown;
    var s0, s1, s2, s3 := [Where(x)], [Where(x), OrderBy(key)], [Where(x), OrderBy(key), Limit(IntConst(n))],
                          [Where(x), OrderBy(key), Limit(IntConst(n)), Join(u, on)];
    assert [] + [Where(x)] == s0 && s0 + [OrderBy(key)] == s1 && s1 + [Limit(IntConst(n))] == s2;
    assert s2 + [Join(u, on)] == s3 && s3 + [Where(y)] == [Where(x), OrderBy(key), Limit(IntConst(n)), Join(u, on), Where(y)];
    NothingCollected();
    WrittenFirst(x);
    OtherClauses([], Where(x));
    OtherClauses(s0, OrderBy(key));
    OtherClauses(s1, Limit(IntConst(n)));
    OtherClauses(s2, Join(u, on));
    OtherClauses(s3, Where(y));
    StepShown([], Where(x));
    StepShown(s0, OrderBy(key));
    StepShown(s1, Limit(IntConst(n)));
    StepShown(s2, Join(u, on));
    StepShown(s3, Where(y));
  }

  /** A select with every clause, whatever the expressions are; the clauses come in the order of SQL, not of the steps. */
  lemma SelectShown(t: string, u: string, on: SqlExpr, x: SqlExpr, y: SqlExpr, key: SqlExpr, n: string)
    requires Visible(x) && Visible(y) && Visible(key) && n != ""
    ensures
      var steps := [Where(x), OrderBy(key), Limit(IntConst(n)), Join(u, on), Where(y)];
      AllVisible(steps)
      && Text(SelectPieces(t, steps))
         == "SELECT * FROM " + t + (" JOIN " + u + " ON " + Shown(on)) + (" WHERE " + (Shown(x) + " AND " + Shown(y)))
            + (" ORDER BY " + Shown(key)) + (" LIMIT " + n)
  {
    hide Text, Holes, JoinPieces, WherePieces, OrderPieces, LimitPieces, SelectPieces;
    var steps := [Where(x), OrderBy(key), Limit(IntConst(n)), Join(u, on), Where(y)];
    VisibleText(key);
    hide Pieces;
    SelectClauses(u, on, x, y, key, n);
    SelectText(t, steps);
    assert "" + (" JOIN " + u + " ON ") + Shown(on) == " JOIN " + u + " ON " + Shown(on);
    hide Shown;
    assert |Shown(x) + " AND " + Shown(y)| > 0;
  }

  lemma WrittenFirst(x: SqlExpr)
    requires Visible(x)
    ensures WherePieces([]) == [] && WherePieces([Where(x)]) != []
  {
    VisibleText(x);
    assert [Where(x)][..0] == [];
  }

  // ---- When a select is aligned ----

  /** No `order_by` that a later one overwrites has a run-time value. */
  predicate OrdersKept(steps: seq<Step>) {
    forall i, j :: 0 <= i < j < |steps| && steps[i].OrderBy? && steps[j].OrderBy? ==> Holes(Pieces(steps[i].e)) == []
  }

  /** No `limit` with a run-time value is overwritten by a later `limit` or `first`. */
  predicate LimitsKept(steps: seq<Step>) {
    forall i, j :: 0 <= i < j < |steps| && steps[i].Limit? && !steps[i].e.IntConst? ==> !steps[j].Limit? && !steps[j].First?
  }

  lemma {:induction false} NoOrders(steps: seq<Step>)
    ensures OrderRecorded(steps) == [] <==> forall i :: 0 <= i < |steps| && steps[i].OrderBy? ==> Holes(Pieces(steps[i].e)) == []
    decreases |steps|
  {
    hide Holes, Pieces;
    if steps != [] {
      NoOrders(steps[..|steps| - 1]);
      assert forall i :: 0 <= i < |steps| - 1 ==> steps[i] == steps[..|steps| - 1][i];
    }
  }

  lemma {:induction false} NoLimits(steps: seq<Step>)
    ensures LimitRecorded(steps) == [] <==> forall i :: 0 <= i < |steps| && steps[i].Limit? ==> steps[i].e.IntConst?
    decreases |steps|
  {
    if steps != [] {
      NoLimits(steps[..|steps| - 1]);
      assert forall i :: 0 <= i < |steps| - 1 ==> steps[i] == steps[..|steps| - 1][i];
    }
  }

  /** What is recorded for `order_by`: what the overwritten ones record, and the holes of the text. */
  lemma {:induction false} OrderSplit(steps: seq<Step>) returns (lost: seq<SqlExpr>)
    ensures OrderRecorded(steps) == lost + Holes(OrderPieces(steps))
    ensures lost == [] <==> OrdersKept(steps)
    decreases |steps|
  {
    NothingWritten();
    hide Holes, Pieces;
    lost := [];
    if steps != [] {
      var init := steps[..|steps| - 1];
      assert forall i :: 0 <= i < |init| ==> steps[i] == init[i];
      if steps[|steps| - 1].OrderBy? {
        NoOrders(init);
        lost := OrderRecorded(init);
        assert OrdersKept(steps) ==> lost == [] by {
          assert OrdersKept(steps) ==> forall i :: 0 <= i < |init| && init[i].OrderBy? ==> Holes(Pieces(init[i].e)) == [];
        }
      } else {
        lost := OrderSplit(init);
      }
    }
  }

  lemma {:induction false} LimitSplit(steps: seq<Step>) returns (lost: seq<SqlExpr>)
    ensures LimitRecorded(steps) == lost + Holes(LimitPieces(steps))
    ensures lost == [] <==> LimitsKept(steps)
    decreases |steps|
  {
    hide Holes;
    lost := [];
    if steps == [] {
      NothingWritten();
    } else {
      var init, last := steps[..|steps| - 1], steps[|steps| - 1];
      KeptStep(steps);
      if last.Limit? || last.First? {
        hide LimitsKept, LimitPiece;
        NoLimits(init);
        lost := LimitRecorded(init);
        LimitHole(last, LimitPieces(init));
      } else {
        hide LimitsKept;
        lost := LimitSplit(init);
      }
    }
  }

  lemma KeptStep(steps: seq<Step>)
    requires steps != []
    ensures
      var init, last := steps[..|steps| - 1], steps[|steps| - 1];
      LimitsKept(steps)
      <==> if last.Limit? || last.First? then forall i :: 0 <= i < |init| && init[i].Limit? ==> init[i].e.IntConst?
           else LimitsKept(init)
  {
    var init, last := steps[..|steps| - 1], steps[|steps| - 1];
    assert forall i :: 0 <= i < |init| ==> steps[i] == init[i];
  }

  lemma LimitHole(s: Step, before: seq<Piece>)
    requires s.Limit? || s.First?
    ensures Holes(LimitPiece(s, before)) == if s.Limit? && !s.e.IntConst? then [s.e] else []
  {
    if s.Limit? { Single(if s.e.IntConst? then Chars(s.e.text) else Hole(s.e)); } else { Single(Chars("1")); }
  }

  /**
   Placeholders of a select line up with the recorded expressions exactly if no run-time value
   of an overwritten `order_by` or `limit` was recorded.
   */
  lemma SelectAligned(table: string, steps: seq<Step>)
    requires AllVisible(steps)
    ensures SelectRecorded(steps) == Holes(SelectPieces(table, steps)) <==> OrdersKept(steps) && LimitsKept(steps)
    ensures |SelectRecorded(steps)| == |Holes(SelectPieces(table, steps))| <==> OrdersKept(steps) && LimitsKept(steps)
  {
    hide Text, Holes, OrdersKept, LimitsKept, SelectPieces, JoinPieces, WherePieces, OrderPieces, LimitPieces,
      OrderRecorded, LimitRecorded;
    SelectText(table, steps);
    var x := OrderSplit(steps);
    var y := LimitSplit(steps);
    var o, l := Holes(OrderPieces(steps)), Holes(LimitPieces(steps));
    if x == [] && y == [] {
      assert [] + o == o && [] + l == l;
    }
  }

  /**
   In terms of the text: where names and constants contain no `?`, there are as many question
   marks as recorded expressions exactly then, and the i-th one is where the i-th expression goes.
   */
  lemma PlaceholdersLineUp(table: string, steps: seq<Step>)
    requires AllVisible(steps) && Clean(SelectPieces(table, steps))
    ensures
      var sql := Text(SelectPieces(table, steps));
      && (|Marks(sql)| == |SelectRecorded(steps)| <==> OrdersKept(steps) && LimitsKept(steps))
      && Marks(sql) == HolePositions(SelectPieces(table, steps))
      && (OrdersKept(steps) && LimitsKept(steps) ==> SelectRecorded(steps) == Holes(SelectPieces(table, steps)))
  {
    hide OrdersKept, LimitsKept, SelectPieces, SelectRecorded, Text, Marks, HolePositions, Holes;
    MarksAreHoles(SelectPieces(table, steps));
    SelectAligned(table, steps);
  }

  /** One `order_by` and one `limit` or `first` at most: always aligned. */
  lemma OnceIsAligned(table: string, steps: seq<Step>)
    requires AllVisible(steps)
    requires forall i, j :: 0 <= i < j < |steps| ==> !(steps[i].OrderBy? && steps[j].OrderBy?)
    requires forall i, j :: 0 <= i < j < |steps| ==> !((steps[i].Limit? || steps[i].First?) && (steps[j].Limit? || steps[j].First?))
    ensures SelectRecorded(steps) == Holes(SelectPieces(table, steps))
  {
    SelectAligned(table, steps);
  }

  /** A parameter left over: `limit` with a run-time value followed by `first`. */
  lemma FirstAfterLimit(table: string)
    ensures var steps := [Limit(Bound(0)), First]; AllVisible(steps) && !LimitsKept(steps)
    ensures var steps := [Limit(Bound(0)), First]; SelectRecorded(steps) != Holes(SelectPieces(table, steps))
  {
    var steps := [Limit(Bound(0)), First];
    assert AllVisible(steps);
    assert steps[0].Limit? && steps[1].First? && !LimitsKept(steps);
    SelectAligned(table, steps);
  }

  // ---- Updates and deletes ----

  lemma FieldsStep(fields: seq<(string, SqlExpr)>, f: (string, SqlExpr), before: seq<Piece>)
    ensures
      var prior := SetFields(fields, before);
      SetFields(fields + [f], before)
      == (if prior == [] then [] else prior + [Chars(", ")]) + [Chars(f.0 + " = ")] + Pieces(f.1)
  {
    assert (fields + [f])[..|fields|] == fields;
  }

  /** One more assignment of a `set` step. */
  method AddField(clause: string, params: seq<SqlExpr>, ghost prior: seq<Piece>, f: (string, SqlExpr))
    returns (clause': string, params': seq<SqlExpr>)
    requires clause == Text(prior) && params == Holes(prior) && (clause == "" <==> prior == [])
    ensures
      var more := (if prior == [] then [] else prior + [Chars(", ")]) + [Chars(f.0 + " = ")] + Pieces(f.1);
      clause' == Text(more) && params' == Holes(more) && clause' != ""
  {
    hide Text, Holes, Pieces;
    var front := if prior == [] then [] else prior + [Chars(", ")];
    Single(Chars(", "));
    Single(Chars(f.0 + " = "));
    Concat(prior, [Chars(", ")]);
    Concat(front, [Chars(f.0 + " = ")]);
    Concat(front + [Chars(f.0 + " = ")], Pieces(f.1));
    clause' := clause;
    if clause' != "" { clause' := clause' + ", "; }
    var sql;
    sql, params' := ExprToSQL(f.1, params);
    assert clause' + (f.0 + " = ") + sql == clause' + (f.0 + " = " + sql);
    clause' := clause' + (f.0 + " = " + sql);
  }

  method AddSet(clause: string, params: seq<SqlExpr>, ghost before: seq<Piece>, fields: seq<(string, SqlExpr)>)
    returns (clause': string, params': seq<SqlExpr>)
    requires clause == Text(before) && params == Holes(before) && (clause == "" <==> before == [])
    ensures clause' == Text(SetFields(fields, before)) && params' == Holes(SetFields(fields, before))
    ensures clause' == "" <==> SetFields(fields, before) == []
  {
    hide Text, Holes, Pieces;
    clause', params' := clause, params;
    var i := 0;
    while i < |fields|
      invariant i <= |fields| && clause' == Text(SetFields(fields[..i], before))
      invariant params' == Holes(SetFields(fields[..i], before))
      invariant clause' == "" <==> SetFields(fields[..i], before) == []
    {
      FieldsStep(fields[..i], fields[i], before);
      assert fields[..i] + [fields[i]] == fields[..i + 1];
      clause', params' := AddField(clause', params', SetFields(fields[..i], before), fields[i]);
      i := i + 1;
    }
    assert fields[..i] == fields;
  }

  lemma UpdateSteps(steps: seq<Step>, s: Step)
    ensures var more := steps + [s];
      && (!s.Where? ==> WherePieces(more) == WherePieces(steps)) && (!s.Set? ==> SetPieces(more) == SetPieces(steps))
      && (s.Set? ==> SetPieces(more) == SetFields(s.fields, SetPieces(steps)))
  {
    hide SetFields;
    var more := steps + [s];
    assert more[..|more| - 1] == steps && more[|more| - 1] == s;
  }

  lemma UpdateText(table: string, steps: seq<Step>)
    requires AllVisible(steps) && (Text(SetPieces(steps)) == "" <==> SetPieces(steps) == [])
    ensures Text(UpdatePieces(table, steps))
         == "UPDATE " + table + Suffix(" SET ", Text(SetPieces(steps))) + Suffix(" WHERE ", Text(WherePieces(steps)))
    ensures Holes(UpdatePieces(table, steps)) == Holes(SetPieces(steps)) + Holes(WherePieces(steps))
  {
    WhereEmpty(steps);
    hide Text, Holes, SetPieces, WherePieces, AllVisible, Clause;
    var head, st, w := Chars("UPDATE " + table), Clause(" SET ", SetPieces(steps)), Clause(" WHERE ", WherePieces(steps));
    Single(head);
    ClauseText(" SET ", SetPieces(steps));
    ClauseText(" WHERE ", WherePieces(steps));
    Concat([head], st);
    Concat([head] + st, w);
    assert [] + Holes(SetPieces(steps)) == Holes(SetPieces(steps));
  }

  /** Updates always line up, whatever the order of the steps: SET comes first in both. */
  method GenerateUpdate(table: string, steps: seq<Step>) returns (r: Statement)
    requires AllVisible(steps)
    ensures r.sql == Text(UpdatePieces(table, steps)) && r.params == Holes(UpdatePieces(table, steps))
  {
    hide Text, Holes, Pieces, WherePieces, SetPieces, SetFields, AllVisible, UpdatePieces, Suffix;
    var setClauses, whereClause, setParams, whereParams := "", "", [], [];
    NothingWritten();
    var i := 0;
    while i < |steps|
      invariant i <= |steps|
      invariant setClauses == Text(SetPieces(steps[..i])) && setParams == Holes(SetPieces(steps[..i]))
      invariant whereClause == Text(WherePieces(steps[..i])) && whereParams == Holes(WherePieces(steps[..i]))
      invariant setClauses == "" <==> SetPieces(steps[..i]) == []
    {
      assert steps[..i] + [steps[i]] == steps[..i + 1];
      UpdateSteps(steps[..i], steps[i]);
      VisiblePrefix(steps, i + 1);
      if steps[i].Where? {
        whereClause, whereParams := AddWhere(whereClause, whereParams, steps[..i], steps[i].e);
      } else if steps[i].Set? {
        setClauses, setParams := AddSet(setClauses, setParams, SetPieces(steps[..i]), steps[i].fields);
      }
      i := i + 1;
    }
    assert steps[..i] == steps;
    var sql := AppendClause("UPDATE " + table, " SET ", setClauses);
    sql := AppendClause(sql, " WHERE ", whereClause);
    UpdateText(table, steps);
    r := Statement(sql, setParams + whereParams);
  }

  /** An update as it is written. */
  lemma UpdateShown(t: string, f: string, x: SqlExpr, g: string, y: SqlExpr, cond: SqlExpr)
    requires Visible(cond)
    ensures
      var steps := [Where(cond), Set([(f, x), (g, y)])];
      AllVisible(steps)
      && Text(UpdatePieces(t, steps))
         == "UPDATE " + t + (" SET " + (f + " = " + Shown(x) + ", " + (g + " = ") + Shown(y))) + (" WHERE " + Shown(cond))
  {
    hide Text, Holes, Pieces, WherePieces, SetPieces, SetFields, UpdatePieces;
    var steps := [Where(cond), Set([(f, x), (g, y)])];
    assert [] + [Where(cond)] == [Where(cond)] && [Where(cond)] + [Set([(f, x), (g, y)])] == steps;
    NothingWritten();
    UpdateSteps([], Where(cond));
    UpdateSteps([Where(cond)], Set([(f, x), (g, y)]));
    StepShown([], Where(cond));
    VisibleText(cond);
    assert SetPieces(steps) == SetFields([(f, x), (g, y)], []);
    FieldsShown(f, x, g, y);
    UpdateText(t, steps);
  }

  lemma FieldsShown(f: string, x: SqlExpr, g: string, y: SqlExpr)
    ensures Text(SetFields([(f, x), (g, y)], [])) == f + " = " + Shown(x) + ", " + (g + " = ") + Shown(y)
    ensures SetFields([(f, x), (g, y)], []) != []
  {
    hide Pieces;
    var one := [Chars(f + " = ")] + Pieces(x);
    assert [] + [(f, x)] == [(f, x)] && [(f, x)] + [(g, y)] == [(f, x), (g, y)];
    FieldsStep([], (f, x), []);
    FieldsStep([(f, x)], (g, y), []);
    Single(Chars(f + " = "));
    Single(Chars(", "));
    Single(Chars(g + " = "));
    assert [] + [Chars(f + " = ")] + Pieces(x) == one;
    Concat([Chars(f + " = ")], Pieces(x));
    Concat(one, [Chars(", ")]);
    Concat(one + [Chars(", ")], [Chars(g + " = ")]);
    Concat(one + [Chars(", ")] + [Chars(g + " = ")], Pieces(y));
  }

  lemma NothingWritten()
    ensures SetPieces([]) == [] && WherePieces([]) == [] && Text([]) == "" && Holes([]) == []
  {
  }

  lemma VisiblePrefix(steps: seq<Step>, i: nat)
    requires AllVisible(steps) && i <= |steps|
    ensures AllVisible(steps[..i])
  {
    assert forall k :: 0 <= k < i ==> steps[..i][k] == steps[k];
  }
}
