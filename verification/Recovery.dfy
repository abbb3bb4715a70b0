/**
 Blocks, modules and panic-mode recovery on the replay buffer. The parsers of single
 statements and declarations are arbitrary; all that is asked of them is that they advance
 or throw, and do not rewind before their start. The loops terminate all the same, although
 the buffer grows when a `>>` is split, and every deferred body is found where it was recorded.
 */
module Recovery {
  import opened Lexing
  import opened TypeText

  /** One run of a statement or declaration parser: what it does to the lexer and how it ends. */
  datatype Attempt = Attempt(ops: seq<Op>, threw: bool, isNull: bool)

  type Parser = Stream -> Attempt

  /** It stays at or after its start, and advances if it produces something. */
  ghost predicate Honest(parser: Parser) {
    forall s: Stream :: Sound(s) ==>
      && Allowed(s, parser(s).ops, s.pos)
      && (!parser(s).threw && !parser(s).isNull ==> Run(s, parser(s).ops).pos > s.pos)
  }

  // ---- The measure ----

  /** Symbols from `low` on, `>>` counted twice. */
  function WeightFrom(s: Stream, low: nat): nat {
    if low <= |s.tokens| then Weight(Live(s.tokens[low..])) else 0
  }

  /** What is left to do: the weight of the symbols, and blank text not yet discovered. */
  function Measure(s: Stream): nat {
    WeightFrom(s, s.pos) + (if s.blank then 1 else 0)
  }

  lemma {:induction false} WeightAppend(a: seq<Symbol>, b: seq<Symbol>)
    ensures Weight(a + b) == Weight(a) + Weight(b)
    decreases |a|
  {
    if a == [] {
      assert a + b == b;
    } else {
      assert (a + b)[1..] == a[1..] + b;
      WeightAppend(a[1..], b);
    }
  }

  lemma {:induction false} LiveSplit(ts: seq<Symbol>, i: nat)
    requires i < |ts| && ts[i] == SHIFT_RIGHT
    ensures Weight(Live(ts[..i] + [CLOSE, CLOSE] + ts[i + 1..])) == Weight(Live(ts))
    decreases i
  {
    var all := ts[..i] + [CLOSE, CLOSE] + ts[i + 1..];
    if i == 0 {
      assert all == [CLOSE] + ([CLOSE] + ts[1..]) && ts == [SHIFT_RIGHT] + ts[1..];
      LiveCons(CLOSE, [CLOSE] + ts[1..]);
      LiveCons(CLOSE, ts[1..]);
      LiveCons(SHIFT_RIGHT, ts[1..]);
      WeightAppend([SHIFT_RIGHT], Live(ts[1..]));
      WeightAppend([CLOSE], [CLOSE] + Live(ts[1..]));
      WeightAppend([CLOSE], Live(ts[1..]));
    } else if ts[0].kind != EndOfFile {
      var tail := ts[1..];
      assert all == [ts[0]] + (tail[..i - 1] + [CLOSE, CLOSE] + tail[i..]);
      assert ts == [ts[0]] + tail;
      LiveCons(ts[0], tail);
      LiveCons(ts[0], tail[..i - 1] + [CLOSE, CLOSE] + tail[i..]);
      LiveSplit(tail, i - 1);
      WeightAppend([ts[0]], Live(tail));
      WeightAppend([ts[0]], Live(tail[..i - 1] + [CLOSE, CLOSE] + tail[i..]));
    }
  }

  /** No operation changes the weight from `low` on. */
  lemma StepWeight(s: Stream, op: Op, low: nat)
    requires Sound(s) && low <= s.pos && (op.Rewind? ==> low <= op.p <= s.seen)
    ensures WeightFrom(Apply(s, op), low) == WeightFrom(s, low) && (Apply(s, op).blank ==> s.blank)
  {
    hide Live, Weight;
    LiveAppend(s.tokens[low..]);
    assert s.tokens[low..] + [EOF] == (s.tokens + [EOF])[low..];
    if op.SplitShift? && At(s) == SHIFT_RIGHT {
      var i := s.pos - low;
      assert s.tokens[low..][..i] + [CLOSE, CLOSE] + s.tokens[low..][i + 1..] == Apply(s, op).tokens[low..];
      LiveSplit(s.tokens[low..], i);
    }
  }

  lemma {:induction false} RunWeight(s: Stream, ops: seq<Op>, low: nat)
    requires Sound(s) && low <= s.pos && Allowed(s, ops, low)
    ensures WeightFrom(Run(s, ops), low) == WeightFrom(s, low) && (Run(s, ops).blank ==> s.blank)
    decreases |ops|
  {
    if ops != [] {
      var init := ops[..|ops| - 1];
      RunWeight(s, init, low);
      PrefixKept(s, init, low);
      StepWeight(Run(s, init), ops[|ops| - 1], low);
    }
  }

  /** Being further on is worth less. */
  lemma {:induction false} FurtherIsLess(s: Stream, low: nat, high: nat)
    requires low <= high <= |s.tokens| && Sound(s)
    ensures WeightFrom(s, high) <= WeightFrom(s, low)
    ensures low < high && s.tokens[low].kind != EndOfFile ==> WeightFrom(s, high) < WeightFrom(s, low)
    decreases high - low
  {
    hide Sound, Weight;
    if low < high {
      FurtherIsLess(s, low + 1, high);
      OneLess(s, low);
    }
  }

  lemma OneLess(s: Stream, low: nat)
    requires low < |s.tokens| && Sound(s)
    ensures WeightFrom(s, low + 1) <= WeightFrom(s, low)
    ensures s.tokens[low].kind != EndOfFile ==> WeightFrom(s, low + 1) < WeightFrom(s, low)
  {
    var ts := s.tokens[low..];
    assert ts[1..] == s.tokens[low + 1..];
    if ts[0].kind == EndOfFile && low + 1 < |s.tokens| { assert s.tokens[low + 1] == EOF; }
  }

  /** After a run that starts at a live symbol and ends further on, there is less to do. */
  lemma RunProgress(s: Stream, ops: seq<Op>)
    requires Sound(s) && Allowed(s, ops, s.pos)
    ensures Measure(Run(s, ops)) <= Measure(s)
    ensures At(s) != EOF && Run(s, ops).pos > s.pos ==> Measure(Run(s, ops)) < Measure(s)
  {
    var r := Run(s, ops);
    PrefixKept(s, ops, s.pos);
    RunWeight(s, ops, s.pos);
    FurtherIsLess(r, s.pos, r.pos);
    if At(s) != EOF && r.pos > s.pos {
      LiveHead(s);
      assert r.tokens[s.pos].kind != EndOfFile;
    }
  }

  lemma OpProgress(s: Stream)
    requires Sound(s)
    ensures Measure(Look(s)) <= Measure(s) && Measure(Advance(s)) <= Measure(s)
    ensures At(s) != EOF ==> Measure(Advance(s)) < Measure(s)
    ensures At(s) == EOF && !AtEnd(s) ==> Measure(Look(s)) < Measure(s)
  {
    RunProgress(s, [Peek]);
    RunProgress(s, [Get]);
    assert [Peek][..0] == [] && [Get][..0] == [];
  }

  lemma LiveHead(s: Stream)
    requires Sound(s) && At(s) != EOF
    ensures WeightFrom(s, s.pos) > 0
  {
  }

  // ---- Recovery inside a block ----

  /** What is left after skipping to the next `;`, or to the `}` that closes the block. */
  function Skipped(ts: seq<Symbol>, depth: nat): (r: seq<Symbol>)
    ensures |r| <= |ts|
  {
    if ts == [] || (depth == 0 && ts[0].kind == RBrace) then ts
    else if ts[0].kind == LBrace then Skipped(ts[1..], depth + 1)
    else if ts[0].kind == RBrace then Skipped(ts[1..], depth - 1)
    else if ts[0].kind == Semicolon && depth == 0 then ts[1..]
    else Skipped(ts[1..], depth)
  }

  lemma SkippedStep(ts: seq<Symbol>, depth: nat)
    ensures
      Skipped(ts, depth)
      == if ts == [] || (depth == 0 && ts[0].kind == RBrace) then ts
         else if ts[0].kind == Semicolon && depth == 0 then ts[1..]
         else Skipped(ts[1..], if ts[0].kind == LBrace then depth + 1 else if ts[0].kind == RBrace then depth - 1 else depth)
  {
  }

  function Nested(depth: nat, k: Kind): nat
    requires depth > 0 || k != RBrace
  {
    if k == LBrace then depth + 1 else if k == RBrace then depth - 1 else depth
  }

  // Where a skip stops, in terms of the braces read.

  function Count(ts: seq<Symbol>, k: Kind): nat {
    if ts == [] then 0 else Count(ts[..|ts| - 1], k) + (if ts[|ts| - 1].kind == k then 1 else 0)
  }

  lemma CountNext(ts: seq<Symbol>, j: nat, n: nat, k: Kind)
    requires j <= n < |ts|
    ensures Count(ts[j..n + 1], k) == Count(ts[j..n], k) + (if ts[n].kind == k then 1 else 0)
  {
    assert ts[j..n + 1][..n - j] == ts[j..n];
  }

  /** As many braces were closed as were opened before symbol `n`. */
  predicate Even(ts: seq<Symbol>, n: nat)
    requires n <= |ts|
  {
    Count(ts[0..n], LBrace) == Count(ts[0..n], RBrace)
  }

  /** The `}` of the block itself. */
  predicate BlockCloses(ts: seq<Symbol>, k: nat)
    requires k < |ts|
  {
    ts[k].kind == RBrace && Even(ts, k)
  }

  /** A `;` outside of nested braces. */
  predicate StatementEnds(ts: seq<Symbol>, k: nat)
    requires k < |ts|
  {
    ts[k].kind == Semicolon && Even(ts, k)
  }

  /** Symbol `n` is the first `}` that closes the block or the one behind the first `;` of the block, or there is none. */
  predicate StatementStop(ts: seq<Symbol>, n: nat)
    requires n <= |ts|
  {
    && (n == |ts| || BlockCloses(ts, n) || (n > 0 && StatementEnds(ts, n - 1)))
    && (forall k :: 0 <= k < n ==> !BlockCloses(ts, k))
    && (forall k :: 0 <= k < n - 1 ==> !StatementEnds(ts, k))
  }

  /** `after` is what is left when skipping stops there. */
  predicate StopsAtStatement(before: seq<Symbol>, after: seq<Symbol>) {
    var n := |before| - |after|;
    0 <= n && after == before[n..] && StatementStop(before, n)
  }

  /** Recovery in a block skips to there. */
  lemma SkipsStatement(ts: seq<Symbol>)
    ensures StopsAtStatement(ts, Skipped(ts, 0))
  {
    assert ts[0..] == ts;
    SkippedFrom(ts, 0, 0);
  }

  lemma {:induction false} SkippedFrom(ts: seq<Symbol>, n: nat, depth: nat)
    requires n <= |ts| && Count(ts[0..n], LBrace) == Count(ts[0..n], RBrace) + depth
    requires forall k :: 0 <= k < n ==> !BlockCloses(ts, k) && !StatementEnds(ts, k)
    ensures StopsAtStatement(ts, Skipped(ts[n..], depth))
    decreases |ts| - n
  {
    hide Count, Skipped;
    SkippedStep(ts[n..], depth);
    if n < |ts| {
      CountNext(ts, 0, n, LBrace);
      CountNext(ts, 0, n, RBrace);
      assert ts[n..][0] == ts[n] && ts[n..][1..] == ts[n + 1..];
      if depth == 0 && ts[n].kind == RBrace {
        assert BlockCloses(ts, n);
      } else if depth == 0 && ts[n].kind == Semicolon {
        assert StatementEnds(ts, n);
      } else {
        SkippedFrom(ts, n + 1, Nested(depth, ts[n].kind));
      }
    }
  }

  /** The stream after such a skip. */
  function Resynced(s: Stream, depth: nat): (r: Stream)
    requires Sound(s)
    ensures Sound(r)
    decreases Measure(s)
  {
    OpProgress(s);
    OpSound(s);
    if AtEnd(s) then s
    else if At(s).kind == EndOfFile || (depth == 0 && At(s).kind == RBrace) then Look(s)
    else if At(s).kind == Semicolon && depth == 0 then Advance(s)
    else Resynced(Advance(s), Nested(depth, At(s).kind))
  }

  lemma OpSound(s: Stream)
    requires Sound(s)
    ensures Sound(Look(s)) && Sound(Advance(s)) && Advance(Look(s)) == Advance(s) && At(Look(s)) == At(s)
    ensures At(s).kind == EndOfFile <==> At(s) == EOF
  {
    ApplySound(s, Peek);
    ApplySound(s, Get);
  }

  lemma ResyncedStep(s: Stream, depth: nat)
    requires Sound(s)
    ensures
      Sound(Look(s)) && Sound(Advance(s)) && Advance(Look(s)) == Advance(s)
      && Resynced(s, depth)
         == if AtEnd(s) then s
            else if At(s).kind == EndOfFile || (depth == 0 && At(s).kind == RBrace) then Look(s)
            else if At(s).kind == Semicolon && depth == 0 then Advance(s)
            else Resynced(Advance(s), Nested(depth, At(s).kind))
  {
    hide Sound, Look, Advance, AtEnd, Measure;
    OpSound(s);
  }

  method ResyncStatement(l: Lexer, ghost before: Stream)
    requires l.Valid() && Untouched(before, l.View())
    modifies l
    ensures l.Valid() && Untouched(before, l.View()) && Left(l.View()) == Skipped(old(Left(l.View())), 0)
    ensures StopsAtStatement(old(Left(l.View())), Left(l.View()))
    ensures old(Sound(l.View())) && l.View() == old(Resynced(l.View(), 0))
    ensures Measure(l.View()) <= old(Measure(l.View()))
    ensures old(At(l.View())) != EOF && old(At(l.View())).kind != RBrace ==> Measure(l.View()) < old(Measure(l.View()))
  {
    hide Sound, Live, Weight, Untouched, Measure, Skipped, Left, StopsAtStatement, Resynced, Look, Advance, AtEnd;
    ghost var start := l.View();
    ResyncedMeasure(start, 0);
    SkipsStatement(Left(start));
    var depth := 0;
    while true
      invariant l.Valid() && Untouched(before, l.View()) && depth >= 0
      invariant Skipped(Left(l.View()), depth) == Skipped(Left(start), 0)
      invariant Sound(l.View()) && Resynced(l.View(), depth) == Resynced(start, 0)
      decreases Measure(l.View())
    {
      LookLeft(l.View());
      SkippedStep(Left(l.View()), depth);
      ResyncedStep(l.View(), depth);
      EofProgress(l.View());
      var eof := l.IsEOF();
      if eof { return; }
      var p := Ahead(l, before);
      if p == EndOfFile || (depth == 0 && p == RBrace) { return; }
      var sym := Next(l, before);
      if sym == LBrace {
        depth := depth + 1;
      } else if sym == RBrace {
        depth := depth - 1;
      } else if sym == Semicolon && depth == 0 {
        return;
      }
    }
  }

  // ---- Blocks ----

  /** The symbol at the start of a run is still there, or is the first half of a split one. */
  lemma {:induction false} StartKept(s: Stream, ops: seq<Op>)
    requires Sound(s) && Allowed(s, ops, s.pos) && s.pos < |s.tokens|
    ensures s.pos < |Run(s, ops).tokens|
    ensures var t := Run(s, ops).tokens[s.pos]; t == s.tokens[s.pos] || (s.tokens[s.pos] == SHIFT_RIGHT && t == CLOSE)
    decreases |ops|
  {
    if ops != [] {
      var init := ops[..|ops| - 1];
      StartKept(s, init);
      PrefixKept(s, init, s.pos);
      hide Sound;
    }
  }

  lemma RunUntouched(before: Stream, s: Stream, ops: seq<Op>)
    requires Untouched(before, s) && Allowed(s, ops, s.pos)
    ensures Untouched(before, Run(s, ops)) && s.pos <= Run(s, ops).pos
  {
    PrefixKept(s, ops, s.pos);
    assert Run(s, ops).tokens[..before.pos] == Run(s, ops).tokens[..s.pos][..before.pos];
    assert s.tokens[..before.pos] == s.tokens[..s.pos][..before.pos];
  }

  /** A failed attempt that did not move left something for the recovery to skip. */
  lemma StuckAtStart(s: Stream, ops: seq<Op>)
    requires Sound(s) && Allowed(s, ops, s.pos) && s.pos < s.seen && Run(s, ops).pos == s.pos
    requires At(s) != EOF
    ensures At(Run(s, ops)) != EOF && (At(s).kind != RBrace ==> At(Run(s, ops)).kind != RBrace)
  {
    StartKept(s, ops);
  }

  /** What one turn of a block does: a statement is kept, or an error reported and skipped. */
  datatype Turn = Turn(produced: bool, reported: bool, after: Stream)

  ghost function TurnOf(parser: Parser, s: Stream): (r: Turn)
    requires Sound(s) && Honest(parser)
    ensures Sound(r.after) && Run(s, parser(s).ops).pos >= s.pos
  {
    var attempt := parser(s);
    var t := Run(s, attempt.ops);
    PrefixKept(s, attempt.ops, s.pos);
    var reported := attempt.threw || (attempt.isNull && t.pos == s.pos);
    Turn(!attempt.threw && !attempt.isNull, reported, if reported then Resynced(t, 0) else t)
  }

  /** Skipping moves on from everything but the end of the block. */
  lemma {:induction false} ResyncedMeasure(s: Stream, depth: nat)
    requires Sound(s)
    ensures Measure(Resynced(s, depth)) <= Measure(s) && Untouched(s, Resynced(s, depth))
    ensures At(s) != EOF && At(s).kind != RBrace ==> Measure(Resynced(s, depth)) < Measure(s)
    decreases Measure(s)
  {
    hide Sound, Look, Advance, AtEnd, Measure, Untouched;
    OpSound(s);
    OpProgress(s);
    ResyncedStep(s, depth);
    EndIsEof(s);
    StartUntouched(s);
    StepUntouched(s, s, Peek);
    StepUntouched(s, s, Get);
    if !AtEnd(s) && At(s).kind != EndOfFile && !(depth == 0 && (At(s).kind == RBrace || At(s).kind == Semicolon)) {
      ResyncedMeasure(Advance(s), Nested(depth, At(s).kind));
      UntouchedTrans(s, Advance(s), Resynced(s, depth));
    }
  }

  /** A turn that starts at a live symbol leaves less to do. */
  lemma TurnProgress(parser: Parser, s: Stream)
    requires Sound(s) && Honest(parser) && s.pos < s.seen && At(s).kind != RBrace
    ensures var t := TurnOf(parser, s);
      && Measure(t.after) <= Measure(s) && (At(s) != EOF ==> Measure(t.after) < Measure(s))
      && Untouched(s, t.after) && !(t.produced && t.reported)
  {
    hide Sound, Untouched, Measure, Run, Allowed;
    SoundInOrder(s);
    var attempt := parser(s);
    RunProgress(s, attempt.ops);
    StartUntouched(s);
    RunUntouched(s, s, attempt.ops);
    var t := Run(s, attempt.ops);
    if At(s) != EOF && t.pos == s.pos { StuckAtStart(s, attempt.ops); }
    PrefixKept(s, attempt.ops, s.pos);
    ResyncedMeasure(t, 0);
    if TurnOf(parser, s).reported { UntouchedTrans(s, t, TurnOf(parser, s).after); }
  }

  lemma SoundInOrder(s: Stream)
    requires Sound(s)
    ensures s.pos <= s.seen <= |s.tokens|
  {
  }

  /** One statement of a block: it is kept, or reported and skipped. There is less to do afterwards. */
  method ParseStatement(l: Lexer, parser: Parser, ghost before: Stream) returns (produced: bool, reported: bool)
    requires l.Valid() && Honest(parser) && Untouched(before, l.View()) && l.mCurrentPos < |l.mSymbolList|
    requires At(l.View()).kind != RBrace
    modifies l
    ensures l.Valid() && Untouched(before, l.View()) && !(produced && reported)
    ensures old(Sound(l.View())) && Turn(produced, reported, l.View()) == old(TurnOf(parser, l.View()))
    ensures
      var (a, end) := old((parser(l.View()), Run(l.View(), parser(l.View()).ops)));
      && (produced <==> !a.threw && !a.isNull) && (reported <==> a.threw || (a.isNull && end.pos == old(l.mCurrentPos)))
      && (if reported then StopsAtStatement(Left(end), Left(l.View())) else l.View() == end)
    ensures Measure(l.View()) <= old(Measure(l.View()))
    ensures old(At(l.View())) != EOF ==> Measure(l.View()) < old(Measure(l.View()))
  {
    hide Sound, Untouched, Measure, Run, Allowed, StopsAtStatement, Left;
    ghost var start := l.View();
    var attempt := parser(l.View());
    var posBefore := l.mCurrentPos;
    TurnProgress(parser, start);
    RunUntouched(before, start, attempt.ops);
    var answers := l.Execute(attempt.ops, l.mCurrentPos);
    produced := !attempt.threw && !attempt.isNull;
    reported := attempt.threw || (attempt.isNull && l.mCurrentPos == posBefore);
    if reported { ResyncStatement(l, before); }
  }

  /** How a braced block ends, what was kept and reported in it, and the stream after it. */
  datatype Outcome = Outcome(ok: bool, kept: nat, errors: nat, after: Stream)

  /** The statements up to the brace that closes the block, or the end of the file. */
  ghost function Statements(parser: Parser, s: Stream): (r: Outcome)
    requires Sound(s) && Honest(parser)
    ensures Sound(r.after)
    decreases Measure(s)
  {
    OpProgress(s);
    OpSound(s);
    if AtEnd(s) then Outcome(true, 0, 0, s)
    else if At(s).kind == RBrace then Outcome(true, 0, 0, Look(s))
    else
      LookSeen(s);
      TurnProgress(parser, Look(s));
      var t := TurnOf(parser, Look(s));
      var r := Statements(parser, t.after);
      r.(kept := r.kept + (if t.produced then 1 else 0), errors := r.errors + (if t.reported then 1 else 0))
  }

  lemma LookSeen(s: Stream)
    requires Sound(s)
    ensures Look(s).pos == s.pos < Look(s).seen
  {
  }

  ghost function BlockOf(parser: Parser, s: Stream): (r: Outcome)
    requires Sound(s) && Honest(parser)
    ensures Sound(r.after)
  {
    OpSound(s);
    if At(s).kind != LBrace then Outcome(false, 0, 0, Advance(s))
    else
      var r := Statements(parser, Advance(s));
      OpSound(r.after);
      if At(r.after).kind == RBrace then r.(after := Advance(r.after)) else r.(ok := false, after := Look(r.after))
  }

  /** A block ends at its closing brace, or at the end of the file. Every statement and error used something up. */
  lemma {:induction false} StatementsEnd(parser: Parser, s: Stream)
    requires Sound(s) && Honest(parser)
    ensures var r := Statements(parser, s);
      && r.ok && (At(r.after).kind == RBrace || At(r.after) == EOF) && Untouched(s, r.after)
      && r.kept + r.errors + Measure(r.after) <= Measure(s)
    decreases Measure(s)
  {
    hide Sound, Untouched, Measure, Look, Advance;
    OpProgress(s);
    OpSound(s);
    StartUntouched(s);
    StepUntouched(s, s, Peek);
    EndIsEof(s);
    if !AtEnd(s) && At(s).kind != RBrace {
      LookSeen(s);
      TurnProgress(parser, Look(s));
      var t := TurnOf(parser, Look(s));
      StatementsEnd(parser, t.after);
      UntouchedTrans(s, Look(s), t.after);
      UntouchedTrans(s, t.after, Statements(parser, s).after);
    }
  }

  lemma EndIsEof(s: Stream)
    requires Sound(s)
    ensures AtEnd(s) ==> At(s) == EOF
  {
  }

  lemma BlockEnd(parser: Parser, s: Stream)
    requires Sound(s) && Honest(parser)
    ensures var r := BlockOf(parser, s);
      && Untouched(s, r.after) && r.kept + r.errors + Measure(r.after) <= Measure(s)
      && (r.ok ==> 0 < r.after.pos <= |r.after.tokens| && r.after.tokens[r.after.pos - 1].kind == RBrace)
      && (!r.ok && At(s).kind == LBrace ==> At(r.after) == EOF && s.pos < r.after.pos)
  {
    hide Sound, Untouched, Measure, Look, Advance, Statements;
    OpProgress(s);
    OpSound(s);
    StartUntouched(s);
    StepUntouched(s, s, Get);
    if At(s).kind == LBrace {
      var r := Statements(parser, Advance(s));
      StatementsEnd(parser, Advance(s));
      OpSound(r.after);
      OpProgress(r.after);
      UntouchedTrans(s, Advance(s), r.after);
      StepUntouched(s, r.after, Get);
      StepUntouched(s, r.after, Peek);
      BehindCursor(s, r.after);
    }
  }

  lemma BehindCursor(s: Stream, t: Stream)
    requires Untouched(Advance(s), t)
    ensures s.pos < t.pos && t.pos < |Advance(t).tokens| && Advance(t).tokens[t.pos] == At(t)
    ensures Look(t).pos == t.pos && Advance(t).pos == t.pos + 1
  {
  }

  /**
   A braced block. It always ends, behind its closing brace or at the end of the file, and every
   statement kept and every error reported used up at least one symbol.
   */
  method ParseBlock(l: Lexer, parser: Parser) returns (ok: bool, found: bool, kept: nat, errors: nat)
    requires l.Valid() && Honest(parser)
    modifies l
    ensures l.Valid() && Untouched(old(l.View()), l.View()) && found == (old(At(l.View())).kind == LBrace)
    ensures old(Sound(l.View())) && Outcome(ok, kept, errors, l.View()) == old(BlockOf(parser, l.View()))
    ensures kept + errors + Measure(l.View()) <= old(Measure(l.View()))
    ensures ok ==> 0 < l.mCurrentPos <= |l.mSymbolList| && l.mSymbolList[l.mCurrentPos - 1].kind == RBrace
    ensures !ok ==> !found || (At(l.View()) == EOF && old(l.mCurrentPos) < l.mCurrentPos)
  {
    hide Sound, Untouched, Measure, AtEnd, Left, Advance, Look;
    ghost var before := l.View();
    StartUntouched(before);
    LookLeft(before);
    OpSound(before);
    BlockEnd(parser, before);
    kept, errors := 0, 0;
    var sym := Next(l, before);
    found := sym == LBrace;
    if !found { return false, found, kept, errors; }
    kept, errors := ParseStatements(l, parser, before);
    OpSound(l.View());
    LookLeft(l.View());
    var p := Ahead(l, before);
    if p != RBrace { return false, found, kept, errors; }
    sym := Next(l, before);
    ok := true;
  }

  method ParseStatements(l: Lexer, parser: Parser, ghost before: Stream) returns (kept: nat, errors: nat)
    requires l.Valid() && Honest(parser) && Untouched(before, l.View())
    modifies l
    ensures l.Valid() && Untouched(before, l.View())
    ensures old(Sound(l.View())) && Outcome(true, kept, errors, l.View()) == old(Statements(parser, l.View()))
  {
    hide Sound, Untouched, Measure, AtEnd, Left, Advance, Look, StopsAtStatement, Run, TurnOf, Statements, Resynced;
    ghost var all := Statements(parser, l.View());
    kept, errors := 0, 0;
    while true
      invariant l.Valid() && Untouched(before, l.View()) && Sound(l.View())
      invariant all == Plus(kept, errors, Statements(parser, l.View()))
      decreases Measure(l.View())
    {
      OpProgress(l.View());
      OpSound(l.View());
      LookLeft(l.View());
      StatementsStep(parser, l.View());
      var eof := l.IsEOF();
      if eof { return; }
      var p := Ahead(l, before);
      if p == RBrace { return; }
      var produced, reported := ParseStatement(l, parser, before);
      kept, errors := kept + (if produced then 1 else 0), errors + (if reported then 1 else 0);
    }
  }

  function Plus(kept: nat, errors: nat, r: Outcome): Outcome {
    r.(kept := kept + r.kept, errors := errors + r.errors)
  }

  lemma StatementsStep(parser: Parser, s: Stream)
    requires Sound(s) && Honest(parser)
    ensures AtEnd(s) ==> Statements(parser, s) == Outcome(true, 0, 0, s)
    ensures !AtEnd(s) && At(s).kind == RBrace ==> Statements(parser, s) == Outcome(true, 0, 0, Look(s))
    ensures !AtEnd(s) && At(s).kind != RBrace ==>
      && Sound(Look(s)) && var t := TurnOf(parser, Look(s));
         Statements(parser, s) == Plus(if t.produced then 1 else 0, if t.reported then 1 else 0, Statements(parser, t.after))
  {
    hide Sound, Look, Measure, AtEnd;
    OpSound(s);
  }

  // ---- A statement that is a declaration or an expression ----

  /** A place in the source; line and column are 0 if there is none. */
  datatype Location = Location(line: nat, col: nat)

  predicate IsSet(a: Location) {
    a.line != 0 && a.col != 0
  }

  predicate Proper(a: Location) {
    IsSet(a) || a == Location(0, 0)
  }

  predicate Behind(a: Location, b: Location) {
    b.line > a.line || (b.line == a.line && b.col > a.col)
  }

  /** Of two errors the one further on, the first one if neither is. */
  function DeeperError(a: Location, b: Location): Location {
    if Behind(a, b) then b else a
  }

  datatype Answer = Found | Nothing | Error(at: Location)

  /** One attempt: what it does to the lexer and how it ends. */
  datatype Tried = Tried(ops: seq<Op>, answer: Answer)

  type Attempts = Stream -> Tried

  ghost predicate HonestAttempts(attempt: Attempts) {
    forall s: Stream :: Sound(s) ==>
      Allowed(s, attempt(s).ops, s.pos) && (attempt(s).answer.Found? ==> Run(s, attempt(s).ops).pos > s.pos)
  }

  /** Where a failed statement is reported: the given place, or the current symbol's if there is none. */
  function Reported(a: Location, here: Location): Location {
    if IsSet(a) then a else here
  }

  /**
   A statement without a keyword of its own is tried as a declaration. If that throws, the lexer
   is rewound and an expression is tried; if there is none either, it is rewound again and
   the deeper error is reported.
   */
  function DeclareOrExpress(declare: Attempts, express: Attempts, here: Location, s: Stream): Tried {
    var d := declare(s);
    if !d.answer.Error? then d
    else
      var back := d.ops + [Rewind(s.pos)];
      var e := express(Run(s, back));
      match e.answer
      case Found => Tried(back + e.ops, Found)
      case Nothing => Tried(back + e.ops + [Rewind(s.pos)], Error(Reported(d.answer.at, here)))
      case Error(at) => Tried(back + e.ops + [Rewind(s.pos)], Error(Reported(DeeperError(d.answer.at, at), here)))
  }

  /** The error reported is that of an attempt none got further than, and has a place if either error has. */
  lemma DeeperIsLast(a: Location, b: Location)
    ensures
      var d := DeeperError(a, b);
      && (d.line > a.line || (d.line == a.line && d.col >= a.col))
      && (d.line > b.line || (d.line == b.line && d.col >= b.col))
    ensures DeeperError(a, b) == a || DeeperError(a, b) == b
    ensures Proper(a) && Proper(b) ==> (IsSet(DeeperError(a, b)) <==> IsSet(a) || IsSet(b))
  {
  }

  lemma {:induction false} RunAppend(s: Stream, a: seq<Op>, b: seq<Op>, low: nat)
    ensures Run(s, a + b) == Run(Run(s, a), b)
    ensures Allowed(s, a + b, low) <==> Allowed(s, a, low) && Allowed(Run(s, a), b, low)
    decreases |b|
  {
    hide Apply;
    if b == [] {
      assert a + b == a;
    } else {
      assert (a + b)[..|a + b| - 1] == a + b[..|b| - 1];
      RunAppend(s, a, b[..|b| - 1], low);
    }
  }

  lemma RewindEnds(s: Stream, ops: seq<Op>)
    requires Sound(s) && Allowed(s, ops, s.pos)
    ensures Allowed(s, ops + [Rewind(s.pos)], s.pos)
    ensures Run(s, ops + [Rewind(s.pos)]) == Rewound(Run(s, ops), s.pos) && Sound(Rewound(Run(s, ops), s.pos))
  {
    hide Allowed, Run;
    RunAppend(s, ops, [Rewind(s.pos)], s.pos);
    PrefixKept(s, ops, s.pos);
    OneOp(Run(s, ops), Rewind(s.pos), s.pos);
  }

  lemma OneOp(s: Stream, op: Op, low: nat)
    ensures Run(s, [op]) == Apply(s, op) && (Allowed(s, [op], low) <==> (op.Rewind? ==> low <= op.p <= s.seen))
  {
    assert [op][..0] == [];
    assert Run(s, []) == s && Allowed(s, [], low);
  }

  /**
   Such a statement is an honest parser, if both attempts are, and one that fails leaves the
   cursor where it started.
   */
  lemma StatementIsHonest(declare: Attempts, express: Attempts, here: Location, s: Stream)
    requires HonestAttempts(declare) && HonestAttempts(express) && Sound(s)
    ensures var t := DeclareOrExpress(declare, express, here, s);
      && Allowed(s, t.ops, s.pos) && (t.answer.Found? ==> Run(s, t.ops).pos > s.pos)
      && (t.answer.Error? ==> Run(s, t.ops).pos == s.pos && declare(s).answer.Error?)
    ensures
      var (d, t) := (declare(s), DeclareOrExpress(declare, express, here, s));
      var again := Rewound(Run(s, d.ops), s.pos);
      if !d.answer.Error? then t == d
      else if express(again).answer.Found? then t.answer.Found? && Run(s, t.ops) == Run(again, express(again).ops)
      else t.answer.Error? && Run(s, t.ops) == Rewound(Run(again, express(again).ops), s.pos)
  {
    hide Allowed, Run, Sound;
    var d := declare(s);
    if d.answer.Error? {
      var back := d.ops + [Rewind(s.pos)];
      RewindEnds(s, d.ops);
      var s1 := Run(s, back);
      var e := express(s1);
      RunAppend(s, back, e.ops, s.pos);
      RewindEnds(s, back + e.ops);
    }
  }

  /** As the parser of a block sees it. */
  function AsParser(declare: Attempts, express: Attempts, here: Stream -> Location): Parser {
    (s: Stream) =>
      var t := DeclareOrExpress(declare, express, here(s), s);
      Attempt(t.ops, t.answer.Error?, t.answer.Nothing?)
  }

  lemma AsParserIsHonest(declare: Attempts, express: Attempts, here: Stream -> Location)
    requires HonestAttempts(declare) && HonestAttempts(express)
    ensures Honest(AsParser(declare, express, here))
  {
    hide HonestAttempts, DeclareOrExpress, Allowed, Run, Sound;
    forall s: Stream | Sound(s)
      ensures
        var a := AsParser(declare, express, here)(s);
        Allowed(s, a.ops, s.pos) && (!a.threw && !a.isNull ==> Run(s, a.ops).pos > s.pos)
    {
      StatementIsHonest(declare, express, here(s), s);
    }
  }

  /** The same on the lexer, with the rewinds in place of the operations that stand for them. */
  method ParseDeclarationOrExpression(l: Lexer, declare: Attempts, express: Attempts, here: Location)
    returns (answer: Answer)
    requires l.Valid() && HonestAttempts(declare) && HonestAttempts(express)
    modifies l
    ensures l.Valid()
    ensures
      var t := old(DeclareOrExpress(declare, express, here, l.View()));
      answer == t.answer && l.View() == old(Run(l.View(), DeclareOrExpress(declare, express, here, l.View()).ops))
    ensures answer.Error? ==> l.mCurrentPos == old(l.mCurrentPos)
  {
    hide Allowed, Run, Sound;
    ghost var start := l.View();
    var pos := l.mCurrentPos;
    SoundInOrder(start);
    StatementIsHonest(declare, express, here, start);
    var d := declare(l.View());
    var answers := l.Execute(d.ops, l.mCurrentPos);
    if !d.answer.Error? { return d.answer; }
    RewindEnds(start, d.ops);
    PrefixKept(start, d.ops, start.pos);
    l.SetCurrentPos(pos);
    ghost var back := d.ops + [Rewind(start.pos)];
    ghost var again := l.View();
    var e := express(l.View());
    RunAppend(start, back, e.ops, start.pos);
    PrefixKept(again, e.ops, again.pos);
    answers := l.Execute(e.ops, l.mCurrentPos);
    if e.answer.Found? { return Found; }
    RewindEnds(start, back + e.ops);
    l.SetCurrentPos(pos);
    answer := Error(Reported(if e.answer.Error? then DeeperError(d.answer.at, e.answer.at) else d.answer.at, here));
  }

  // ---- Modules ----

  predicate StartsDeclaration(k: Kind) {
    k == Starter || k == Modifier
  }

  /** What is left after skipping at least one symbol and then to the next top-level declaration. */
  function SkippedTop(ts: seq<Symbol>, depth: nat, first: bool): (r: seq<Symbol>)
    ensures |r| <= |ts|
  {
    if ts == [] || (!first && depth == 0 && StartsDeclaration(ts[0].kind)) then ts
    else
      SkippedTop(ts[1..], if ts[0].kind == LBrace then depth + 1
                          else if ts[0].kind == RBrace && depth > 0 then depth - 1 else depth, false)
  }

  lemma SkippedTopStep(ts: seq<Symbol>, depth: nat, first: bool)
    ensures
      SkippedTop(ts, depth, first)
      == if ts == [] || (!first && depth == 0 && StartsDeclaration(ts[0].kind)) then ts
         else SkippedTop(ts[1..], if ts[0].kind == LBrace then depth + 1
                                  else if ts[0].kind == RBrace && depth > 0 then depth - 1 else depth, false)
  {
  }

  function NestedTop(depth: nat, k: Kind): nat {
    if k == LBrace then depth + 1 else if k == RBrace && depth > 0 then depth - 1 else depth
  }

  /** Every brace opened before symbol `n` is closed again before it. */
  predicate AtTop(ts: seq<Symbol>, n: nat)
    requires n <= |ts|
  {
    forall j :: 0 <= j <= n ==> Count(ts[j..n], LBrace) <= Count(ts[j..n], RBrace)
  }

  /**
   Symbol `n`, if there is one, starts a declaration outside of braces, and it is the first such
   symbol after the one at which parsing failed.
   */
  predicate DeclarationStop(ts: seq<Symbol>, n: nat)
    requires n <= |ts|
  {
    && (ts != [] ==> n > 0)
    && (n < |ts| ==> (ts[n].kind == Starter || ts[n].kind == Modifier) && AtTop(ts, n))
    && (forall k :: 0 < k < n && (ts[k].kind == Starter || ts[k].kind == Modifier) ==> !AtTop(ts, k))
  }

  /** `after` is what is left when skipping stops as it should. */
  predicate StopsAtDeclaration(before: seq<Symbol>, after: seq<Symbol>) {
    var n := |before| - |after|;
    0 <= n && after == before[n..] && DeclarationStop(before, n)
  }

  /** `depth` is the largest number of braces opened, less those closed, up to symbol `n`. */
  ghost predicate IsDepth(ts: seq<Symbol>, n: nat, depth: nat)
    requires n <= |ts|
  {
    && (forall j :: 0 <= j <= n ==> Count(ts[j..n], LBrace) <= Count(ts[j..n], RBrace) + depth)
    && (exists j :: 0 <= j <= n && Count(ts[j..n], LBrace) == Count(ts[j..n], RBrace) + depth)
  }

  lemma DepthNext(ts: seq<Symbol>, n: nat, depth: nat)
    requires n < |ts| && IsDepth(ts, n, depth)
    ensures IsDepth(ts, n + 1, NestedTop(depth, ts[n].kind))
  {
    hide Count;
    NothingCounted(ts, n + 1);
    var d := NestedTop(depth, ts[n].kind);
    var m := n + 1;
    forall j | 0 <= j <= m ensures Count(ts[j..m], LBrace) <= Count(ts[j..m], RBrace) + d {
      if j <= n { OneDeeper(ts, j, n); }
    }
    var j :| 0 <= j <= n && Count(ts[j..n], LBrace) == Count(ts[j..n], RBrace) + depth;
    OneDeeper(ts, j, n);
    var i := if ts[n].kind == RBrace && depth == 0 then n + 1 else j;
    assert Count(ts[i..n + 1], LBrace) == Count(ts[i..n + 1], RBrace) + d;
  }

  lemma OneDeeper(ts: seq<Symbol>, j: nat, n: nat)
    requires j <= n < |ts|
    ensures Count(ts[j..n + 1], LBrace) == Count(ts[j..n], LBrace) + (if ts[n].kind == LBrace then 1 else 0)
    ensures Count(ts[j..n + 1], RBrace) == Count(ts[j..n], RBrace) + (if ts[n].kind == RBrace then 1 else 0)
  {
    CountNext(ts, j, n, LBrace);
    CountNext(ts, j, n, RBrace);
  }

  lemma NothingCounted(ts: seq<Symbol>, n: nat)
    requires n <= |ts|
    ensures Count(ts[n..n], LBrace) == 0 && Count(ts[n..n], RBrace) == 0
  {
  }

  lemma DepthIsTop(ts: seq<Symbol>, n: nat, depth: nat)
    requires n <= |ts| && IsDepth(ts, n, depth)
    ensures AtTop(ts, n) <==> depth == 0
  {
    hide Count;
  }

  /** Recovery between declarations skips to there. */
  lemma SkipsToDeclaration(ts: seq<Symbol>)
    ensures StopsAtDeclaration(ts, SkippedTop(ts, 0, true))
  {
    assert ts[0..] == ts;
    NothingCounted(ts, 0);
    SkippedTopFrom(ts, 0, 0);
  }

  lemma {:induction false} SkippedTopFrom(ts: seq<Symbol>, n: nat, depth: nat)
    requires n <= |ts| && IsDepth(ts, n, depth)
    requires forall k :: 0 < k < n && (ts[k].kind == Starter || ts[k].kind == Modifier) ==> !AtTop(ts, k)
    ensures StopsAtDeclaration(ts, SkippedTop(ts[n..], depth, n == 0))
    decreases |ts| - n
  {
    hide Count, SkippedTop, IsDepth, AtTop;
    SkippedTopStep(ts[n..], depth, n == 0);
    DepthIsTop(ts, n, depth);
    if n < |ts| {
      assert ts[n..][0] == ts[n] && ts[n..][1..] == ts[n + 1..];
      if n == 0 || depth != 0 || !StartsDeclaration(ts[n].kind) {
        DepthNext(ts, n, depth);
        SkippedTopFrom(ts, n + 1, NestedTop(depth, ts[n].kind));
      }
    }
  }

  /** The stream after such a skip. */
  function TopResynced(s: Stream, depth: nat, first: bool): (r: Stream)
    requires Sound(s)
    ensures Sound(r)
    decreases Measure(s)
  {
    OpProgress(s);
    OpSound(s);
    if AtEnd(s) then s
    else if At(s).kind == EndOfFile || (!first && depth == 0 && StartsDeclaration(At(s).kind)) then Look(s)
    else TopResynced(Advance(s), NestedTop(depth, At(s).kind), false)
  }

  lemma TopResyncedStep(s: Stream, depth: nat, first: bool)
    requires Sound(s)
    ensures
      Sound(Look(s)) && Sound(Advance(s)) && Advance(Look(s)) == Advance(s)
      && TopResynced(s, depth, first)
         == if AtEnd(s) then s
            else if At(s).kind == EndOfFile || (!first && depth == 0 && StartsDeclaration(At(s).kind)) then Look(s)
            else TopResynced(Advance(s), NestedTop(depth, At(s).kind), false)
  {
    hide Sound, Look, Advance, AtEnd, Measure;
    OpSound(s);
  }

  method ResyncTopLevel(l: Lexer, ghost before: Stream)
    requires l.Valid() && Untouched(before, l.View())
    modifies l
    ensures l.Valid() && Untouched(before, l.View()) && Left(l.View()) == SkippedTop(old(Left(l.View())), 0, true)
    ensures StopsAtDeclaration(old(Left(l.View())), Left(l.View()))
    ensures old(Sound(l.View())) && l.View() == old(TopResynced(l.View(), 0, true))
    ensures Measure(l.View()) <= old(Measure(l.View()))
    ensures old(At(l.View())) != EOF ==> Measure(l.View()) < old(Measure(l.View()))
  {
    hide Sound, Live, Weight, Untouched, Measure, SkippedTop, Left, TopResynced, Look, Advance, AtEnd, StopsAtDeclaration;
    ghost var start := l.View();
    SkipsToDeclaration(Left(start));
    TopMeasure(start, 0, true);
    var depth, first := 0, true;
    while true
      invariant l.Valid() && Untouched(before, l.View()) && depth >= 0
      invariant SkippedTop(Left(l.View()), depth, first) == SkippedTop(Left(start), 0, true)
      invariant Sound(l.View()) && TopResynced(l.View(), depth, first) == TopResynced(start, 0, true)
      decreases Measure(l.View())
    {
      LookLeft(l.View());
      SkippedTopStep(Left(l.View()), depth, first);
      TopResyncedStep(l.View(), depth, first);
      EofProgress(l.View());
      var eof := l.IsEOF();
      if eof { return; }
      var p := Ahead(l, before);
      if p == EndOfFile || (!first && depth == 0 && StartsDeclaration(p)) { return; }
      var sym := Next(l, before);
      if sym == LBrace {
        depth := depth + 1;
      } else if sym == RBrace && depth > 0 {
        depth := depth - 1;
      }
      first := false;
    }
  }

  // ---- Deferred bodies ----

  /** What follows the brace that closes the `depth` open ones. */
  function AfterClose(ts: seq<Symbol>, depth: nat): seq<Symbol> {
    if ts == [] || depth == 0 then ts
    else
      AfterClose(ts[1..], if ts[0].kind == LBrace then depth + 1 else if ts[0].kind == RBrace then depth - 1 else depth)
  }

  lemma AfterCloseStep(ts: seq<Symbol>, depth: nat)
    ensures depth == 0 ==> AfterClose(ts, depth) == ts
    ensures depth > 0 && ts != [] ==>
      AfterClose(ts, depth)
      == AfterClose(ts[1..], if ts[0].kind == LBrace then depth + 1 else if ts[0].kind == RBrace then depth - 1 else depth)
  {
  }

  /** The same on the stream; it fails at the end of the file. */
  datatype Skip = Skip(ok: bool, after: Stream)

  function BracesSkipped(s: Stream, depth: nat): (r: Skip)
    requires Sound(s)
    ensures Sound(r.after)
    decreases Measure(s), depth
  {
    OpProgress(s);
    OpSound(s);
    EofProgress(s);
    if depth == 0 then Skip(true, s)
    else if AtEnd(s) then Skip(false, s)
    else BracesSkipped(Advance(s), Nested(depth, At(s).kind))
  }

  function BodySkipped(s: Stream): (r: Skip)
    requires Sound(s)
    ensures Sound(r.after)
  {
    OpSound(s);
    if At(s).kind == LBrace then BracesSkipped(Advance(s), 1) else Skip(false, Advance(s))
  }

  /** Symbol `n - 1` is the first `}` with no partner before it. */
  predicate BodyStop(ts: seq<Symbol>, n: nat)
    requires n <= |ts|
  {
    n > 0 && BlockCloses(ts, n - 1) && forall k :: 0 <= k < n - 1 ==> !BlockCloses(ts, k)
  }

  /** A skipped body ends behind the brace that matches its first one; without such a brace it is an error. */
  predicate EndsBody(before: seq<Symbol>, ok: bool, after: seq<Symbol>) {
    var n := |before| - |after|;
    if ok then 0 <= n && after == before[n..] && BodyStop(before, n)
    else forall k :: 0 <= k < |before| ==> !BlockCloses(before, k)
  }

  lemma {:induction false} BracesMatch(s: Stream, depth: nat, ts: seq<Symbol>, n: nat)
    requires Sound(s) && n <= |ts| && Left(s) == ts[n..]
    requires if depth == 0 then BodyStop(ts, n)
             else Count(ts[0..n], LBrace) + 1 == Count(ts[0..n], RBrace) + depth && forall k :: 0 <= k < n ==> !BlockCloses(ts, k)
    ensures EndsBody(ts, BracesSkipped(s, depth).ok, Left(BracesSkipped(s, depth).after))
    decreases Measure(s), depth
  {
    hide Sound, Left, Measure, Advance, AtEnd, Look, Count;
    LookLeft(s);
    EndIsEof(s);
    OpSound(s);
    if depth > 0 && !AtEnd(s) {
      BracesStep(s, depth);
      AdvanceLeft(s);
      var k := Nested(depth, At(s).kind);
      if n == |ts| {
        assert ts[n..] == [];
        BracesMatch(Advance(s), k, ts, n);
      } else {
        assert ts[n..][0] == ts[n] && ts[n..][1..] == ts[n + 1..];
        CountNext(ts, 0, n, LBrace);
        CountNext(ts, 0, n, RBrace);
        BracesMatch(Advance(s), k, ts, n + 1);
      }
    }
  }

  lemma BodyMatches(s: Stream)
    requires Sound(s) && At(s).kind == LBrace
    ensures Left(s) != [] && EndsBody(Left(s)[1..], BodySkipped(s).ok, Left(BodySkipped(s).after))
  {
    hide Sound, Left, Measure, Advance, AtEnd, Look, BracesSkipped, EndsBody;
    OpSound(s);
    LookLeft(s);
    AdvanceLeft(s);
    var ts := Left(s)[1..];
    assert ts[0..] == ts;
    NothingCounted(ts, 0);
    BracesMatch(Advance(s), 1, ts, 0);
  }

  /** Record where a body starts and skip to just after its closing brace. */
  method SkipBody(l: Lexer, ghost before: Stream) returns (ok: bool, bodyPos: nat)
    requires l.Valid() && Untouched(before, l.View())
    modifies l
    ensures l.Valid() && Untouched(before, l.View()) && bodyPos == old(l.mCurrentPos)
    ensures Untouched(old(l.View()), l.View()) && Measure(l.View()) <= old(Measure(l.View()))
    ensures ok ==> old(At(l.View())).kind == LBrace && bodyPos < l.mCurrentPos
    ensures ok ==> l.mSymbolList[bodyPos].kind == LBrace
    ensures ok ==> Left(l.View()) == AfterClose(old(Left(l.View()))[1..], 1)
    ensures old(At(l.View())).kind == LBrace ==>
      old(Left(l.View())) != [] && EndsBody(old(Left(l.View()))[1..], ok, Left(l.View()))
    ensures old(Sound(l.View())) && Skip(ok, l.View()) == old(BodySkipped(l.View()))
  {
    hide Sound, Live, Weight, Measure, Left, Advance, EndsBody;
    ghost var start := l.View();
    if At(start).kind == LBrace { BodyMatches(start); }
    StartUntouched(start);
    OpSound(start);
    LookLeft(start);
    bodyPos := l.mCurrentPos;
    OpProgress(start);
    var sym := Next(l, start);
    UntouchedTrans(before, start, l.View());
    if sym != LBrace { return false, bodyPos; }
    ghost var inside := l.View();
    StartUntouched(inside);
    ok := SkipBraces(l, inside);
    UntouchedTrans(start, inside, l.View());
    UntouchedTrans(before, start, l.View());
    assert l.View().tokens[..bodyPos + 1][bodyPos] == inside.tokens[..bodyPos + 1][bodyPos];
    ListAt(l, bodyPos);
  }

  lemma ListAt(l: Lexer, i: nat)
    requires l.Valid() && i < l.mCurrentPos
    ensures i < |l.mSymbolList| && l.mSymbolList[i] == l.View().tokens[i]
  {
  }

  /** Skip to just after the brace that closes the one already consumed. */
  method SkipBraces(l: Lexer, ghost before: Stream) returns (ok: bool)
    requires l.Valid() && Untouched(before, l.View())
    modifies l
    ensures l.Valid() && Untouched(before, l.View()) && Measure(l.View()) <= old(Measure(l.View()))
    ensures Untouched(old(l.View()), l.View())
    ensures ok ==> Left(l.View()) == AfterClose(old(Left(l.View())), 1)
    ensures old(Sound(l.View())) && Skip(ok, l.View()) == old(BracesSkipped(l.View(), 1))
  {
    hide Sound, Live, Weight, Measure, Left, Untouched, AfterClose, AtEnd;
    ghost var start := l.View();
    StartUntouched(start);
    var depth := 1;
    AfterCloseStep(Left(start), 1);
    while depth > 0
      invariant l.Valid() && Untouched(start, l.View()) && depth >= 0 && Measure(l.View()) <= Measure(start)
      invariant AfterClose(Left(l.View()), depth) == AfterClose(Left(start), 1)
      invariant Sound(l.View()) && BracesSkipped(l.View(), depth) == BracesSkipped(start, 1)
      decreases Measure(l.View()), depth
    {
      var eof := l.IsEOF();
      if eof {
        UntouchedTrans(before, start, l.View());
        return false;
      }
      LookLeft(l.View());
      OpProgress(l.View());
      AfterCloseStep(Left(l.View()), depth);
      BracesStep(l.View(), depth);
      var sym := Next(l, start);
      if sym == LBrace {
        depth := depth + 1;
      } else if sym == RBrace {
        depth := depth - 1;
      }
    }
    AfterCloseStep(Left(l.View()), 0);
    UntouchedTrans(before, start, l.View());
    ok := true;
  }

  lemma EofProgress(s: Stream)
    requires Sound(s)
    ensures !AtEnd(s) ==> Measure(Advance(s)) < Measure(s)
  {
    OpProgress(s);
  }

  lemma BracesStep(s: Stream, depth: nat)
    requires Sound(s) && depth > 0 && !AtEnd(s)
    ensures Sound(Advance(s)) && Measure(Advance(s)) < Measure(s)
    ensures BracesSkipped(s, depth) == BracesSkipped(Advance(s), Nested(depth, At(s).kind))
  {
    hide Sound, Advance, AtEnd, Measure;
    OpSound(s);
    EofProgress(s);
  }

  // ---- A whole module ----

  /** A top-level declaration parser's run; `hasBody`: a function whose body is to be deferred follows. */
  datatype Declared = Declared(ops: seq<Op>, threw: bool, hasBody: bool)

  type DeclarationParser = Stream -> Declared

  ghost predicate HonestTop(parser: DeclarationParser) {
    forall s: Stream :: Sound(s) ==>
      && Allowed(s, parser(s).ops, s.pos)
      && (!parser(s).threw ==> Run(s, parser(s).ops).pos > s.pos)
  }

  /** Each recorded position is before the cursor, after the one before, and at an opening brace. */
  ghost predicate Addressable(bodies: seq<nat>, s: Stream) {
    && (forall i :: 0 <= i < |bodies| ==>
          bodies[i] < s.pos && bodies[i] < |s.tokens| && s.tokens[bodies[i]].kind == LBrace)
    && (forall i, j :: 0 <= i < j < |bodies| ==> bodies[i] < bodies[j])
  }

  /** What comes after a recorded position does not matter. */
  lemma AddressableLater(bodies: seq<nat>, s: Stream, t: Stream)
    requires Addressable(bodies, s) && Untouched(s, t)
    ensures Addressable(bodies, t)
  {
    hide Sound;
    forall i | 0 <= i < |bodies| ensures t.tokens[bodies[i]] == s.tokens[bodies[i]] {
      assert t.tokens[..s.pos][bodies[i]] == s.tokens[..s.pos][bodies[i]];
    }
  }

  /** What a declaration does to the stream, and where its body starts. */
  datatype Declaration = Declaration(threw: bool, hasBody: bool, bodyPos: nat, after: Stream)

  ghost function DeclarationAt(parser: DeclarationParser, s: Stream): (r: Declaration)
    requires Sound(s) && HonestTop(parser)
    ensures Sound(r.after)
  {
    var decl := parser(s);
    var t := Run(s, decl.ops);
    PrefixKept(s, decl.ops, s.pos);
    if decl.threw || !decl.hasBody then Declaration(decl.threw, false, 0, t)
    else Declaration(!BodySkipped(t).ok, BodySkipped(t).ok, t.pos, BodySkipped(t).after)
  }

  lemma {:induction false} BracesMeasure(s: Stream, depth: nat)
    requires Sound(s)
    ensures Measure(BracesSkipped(s, depth).after) <= Measure(s)
    decreases Measure(s), depth
  {
    hide Sound, Advance, AtEnd, Measure;
    if depth > 0 && !AtEnd(s) {
      BracesStep(s, depth);
      BracesMeasure(Advance(s), Nested(depth, At(s).kind));
    }
  }

  lemma BodyMeasure(s: Stream)
    requires Sound(s)
    ensures Measure(BodySkipped(s).after) <= Measure(s)
  {
    hide Sound, Advance, AtEnd, Measure, BracesSkipped;
    OpSound(s);
    OpProgress(s);
    if At(s).kind == LBrace { BracesMeasure(Advance(s), 1); }
  }

  lemma {:induction false} TopMeasure(s: Stream, depth: nat, first: bool)
    requires Sound(s)
    ensures Measure(TopResynced(s, depth, first)) <= Measure(s)
    ensures first && At(s) != EOF ==> Measure(TopResynced(s, depth, first)) < Measure(s)
    decreases Measure(s)
  {
    hide Sound, Look, Advance, AtEnd, Measure;
    OpSound(s);
    OpProgress(s);
    EofProgress(s);
    EndIsEof(s);
    TopResyncedStep(s, depth, first);
    if !AtEnd(s) && At(s).kind != EndOfFile && (first || depth != 0 || !StartsDeclaration(At(s).kind)) {
      TopMeasure(Advance(s), NestedTop(depth, At(s).kind), false);
    }
  }

  /** A declaration kept or an error skipped: less is left to do. */
  ghost function DeclareTurn(parser: DeclarationParser, bodies: seq<nat>, s: Stream): (r: (seq<nat>, bool, Stream))
    requires Sound(s) && HonestTop(parser)
    ensures Sound(r.2)
  {
    var d := DeclarationAt(parser, s);
    if d.threw then (bodies, true, TopResynced(d.after, 0, true))
    else (if d.hasBody then bodies + [d.bodyPos] else bodies, false, d.after)
  }

  lemma {:induction false} TopLeft(s: Stream, depth: nat, first: bool)
    requires Sound(s)
    ensures Left(TopResynced(s, depth, first)) == SkippedTop(Left(s), depth, first)
    decreases Measure(s)
  {
    hide Sound, Look, Advance, AtEnd, Measure, Left;
    LookLeft(s);
    AdvanceLeft(s);
    OpSound(s);
    EofProgress(s);
    EndIsEof(s);
    TopResyncedStep(s, depth, first);
    SkippedTopStep(Left(s), depth, first);
    if !AtEnd(s) && At(s).kind != EndOfFile && (first || depth != 0 || !StartsDeclaration(At(s).kind)) {
      TopLeft(Advance(s), NestedTop(depth, At(s).kind), false);
    }
  }

  /** After an error the next turn starts at the next declaration outside of braces; none is passed over. */
  lemma ErrorsEndAtDeclarations(parser: DeclarationParser, bodies: seq<nat>, s: Stream)
    requires Sound(s) && HonestTop(parser)
    ensures var (_, threw, after) := DeclareTurn(parser, bodies, s);
      threw ==> StopsAtDeclaration(Left(DeclarationAt(parser, s).after), Left(after))
  {
    hide Sound, Left, TopResynced, DeclarationAt, StopsAtDeclaration;
    var d := DeclarationAt(parser, s);
    TopLeft(d.after, 0, true);
    SkipsToDeclaration(Left(d.after));
  }

  lemma DeclarationProgress(parser: DeclarationParser, s: Stream)
    requires Sound(s) && HonestTop(parser) && s.pos < s.seen && At(s) != EOF
    ensures var d := DeclarationAt(parser, s);
      && Measure(d.after) <= Measure(s) && (Measure(d.after) < Measure(s) || (d.threw && At(d.after) != EOF))
  {
    hide Sound, Measure, Run, Allowed, BodySkipped;
    SoundInOrder(s);
    var decl := parser(s);
    PrefixKept(s, decl.ops, s.pos);
    RunProgress(s, decl.ops);
    var t := Run(s, decl.ops);
    if t.pos == s.pos { StuckAtStart(s, decl.ops); }
    BodyMeasure(t);
  }

  lemma DeclareProgress(parser: DeclarationParser, bodies: seq<nat>, s: Stream)
    requires Sound(s) && HonestTop(parser) && s.pos < s.seen && At(s) != EOF
    ensures Measure(DeclareTurn(parser, bodies, s).2) < Measure(s)
  {
    hide Sound, Measure, TopResynced, DeclarationAt;
    DeclarationProgress(parser, s);
    TopMeasure(DeclarationAt(parser, s).after, 0, true);
  }

  /** The first pass: bodies recorded, errors reported, and the stream at the end. */
  datatype Pass = Pass(bodies: seq<nat>, errors: nat, after: Stream)

  ghost function DeclarationsFrom(parser: DeclarationParser, bodies: seq<nat>, s: Stream): (r: Pass)
    requires Sound(s) && HonestTop(parser)
    ensures Sound(r.after)
    decreases Measure(s)
  {
    hide Sound, Measure, DeclareTurn, Look, AtEnd, HonestTop;
    OpSound(s);
    OpProgress(s);
    if AtEnd(s) then Pass(bodies, 0, s)
    else if At(s).kind == EndOfFile then Pass(bodies, 0, Look(s))
    else
      LookSeen(s);
      DeclareProgress(parser, bodies, Look(s));
      var t := DeclareTurn(parser, bodies, Look(s));
      var r := DeclarationsFrom(parser, t.0, t.2);
      r.(errors := r.errors + (if t.1 then 1 else 0))
  }

  lemma DeclarationsStep(parser: DeclarationParser, bodies: seq<nat>, s: Stream)
    requires Sound(s) && HonestTop(parser)
    ensures Sound(Look(s)) && At(Look(s)) == At(s)
    ensures AtEnd(s) ==> DeclarationsFrom(parser, bodies, s) == Pass(bodies, 0, s)
    ensures !AtEnd(s) && At(s).kind == EndOfFile ==> DeclarationsFrom(parser, bodies, s) == Pass(bodies, 0, Look(s))
    ensures !AtEnd(s) && At(s).kind != EndOfFile ==>
      var t := DeclareTurn(parser, bodies, Look(s));
      var r := DeclarationsFrom(parser, t.0, t.2);
      DeclarationsFrom(parser, bodies, s) == r.(errors := r.errors + (if t.1 then 1 else 0))
  {
    hide Sound, Measure, DeclareTurn, Look, AtEnd, HonestTop;
    OpSound(s);
  }

  /** In the whole pass, every error is followed by the next declaration. */
  ghost predicate ResumesAtDeclarations(parser: DeclarationParser, bodies: seq<nat>, s: Stream)
    requires Sound(s) && HonestTop(parser)
    decreases Measure(s)
  {
    hide Sound, Measure, DeclareTurn, Look, AtEnd, HonestTop, Left, StopsAtDeclaration, DeclarationAt;
    OpSound(s);
    OpProgress(s);
    if AtEnd(s) || At(s).kind == EndOfFile then true
    else
      LookSeen(s);
      DeclareProgress(parser, bodies, Look(s));
      var (more, threw, after) := DeclareTurn(parser, bodies, Look(s));
      && (threw ==> StopsAtDeclaration(Left(DeclarationAt(parser, Look(s)).after), Left(after)))
      && ResumesAtDeclarations(parser, more, after)
  }

  lemma {:induction false} Resumes(parser: DeclarationParser, bodies: seq<nat>, s: Stream)
    requires Sound(s) && HonestTop(parser)
    ensures ResumesAtDeclarations(parser, bodies, s)
    decreases Measure(s)
  {
    hide Sound, Measure, DeclareTurn, Look, AtEnd, HonestTop, Left, StopsAtDeclaration, DeclarationAt;
    OpSound(s);
    OpProgress(s);
    if !AtEnd(s) && At(s).kind != EndOfFile {
      LookSeen(s);
      DeclareProgress(parser, bodies, Look(s));
      ErrorsEndAtDeclarations(parser, bodies, Look(s));
      var (more, threw, after) := DeclareTurn(parser, bodies, Look(s));
      Resumes(parser, more, after);
    }
  }

  /** One top-level declaration: its body, if it has one, is skipped and recorded. */
  method ParseDeclaration(l: Lexer, parser: DeclarationParser) returns (threw: bool, hasBody: bool, bodyPos: nat)
    requires l.Valid() && HonestTop(parser) && l.mCurrentPos < |l.mSymbolList|
    modifies l
    ensures l.Valid() && Untouched(old(l.View()), l.View())
    ensures Measure(l.View()) <= old(Measure(l.View()))
    ensures old(At(l.View())) != EOF ==> Measure(l.View()) < old(Measure(l.View())) || (threw && At(l.View()) != EOF)
    ensures hasBody ==> !threw && old(l.mCurrentPos) <= bodyPos < l.mCurrentPos && l.mSymbolList[bodyPos].kind == LBrace
    ensures old(Sound(l.View())) && Declaration(threw, hasBody, bodyPos, l.View()) == old(DeclarationAt(parser, l.View()))
  {
    hide Sound, Measure, Run, Allowed, Untouched, BodySkipped;
    ghost var start := l.View();
    StartUntouched(start);
    var decl := parser(l.View());
    RunProgress(start, decl.ops);
    RunUntouched(start, start, decl.ops);
    if At(start) != EOF && Run(start, decl.ops).pos == start.pos { StuckAtStart(start, decl.ops); }
    var answers := l.Execute(decl.ops, l.mCurrentPos);
    threw, hasBody, bodyPos := decl.threw, false, 0;
    if !threw && decl.hasBody {
      hasBody, bodyPos := SkipBody(l, start);
      threw := !hasBody;
    }
  }

  /** A declaration is kept, or reported and skipped; a deferred body is recorded. */
  method DeclareOrRecover(l: Lexer, parser: DeclarationParser, bodies: seq<nat>)
    returns (result: seq<nat>, threw: bool)
    requires l.Valid() && HonestTop(parser) && l.mCurrentPos < |l.mSymbolList| && At(l.View()) != EOF
    requires Addressable(bodies, l.View())
    modifies l
    ensures l.Valid() && Addressable(result, l.View()) && Measure(l.View()) < old(Measure(l.View()))
    ensures |result| + (if threw then 1 else 0) <= |bodies| + 1
    ensures old(Sound(l.View())) && (result, threw, l.View()) == old(DeclareTurn(parser, bodies, l.View()))
    ensures threw ==> StopsAtDeclaration(old(Left(DeclarationAt(parser, l.View()).after)), Left(l.View()))
  {
    hide Sound, Measure, Untouched, AtEnd, SkippedTop, Left, DeclarationAt, TopResynced, StopsAtDeclaration;
    ghost var start := l.View();
    ErrorsEndAtDeclarations(parser, bodies, start);
    var hasBody, bodyPos;
    threw, hasBody, bodyPos := ParseDeclaration(l, parser);
    AddressableLater(bodies, start, l.View());
    result := bodies;
    if threw {
      ghost var failed := l.View();
      StartUntouched(failed);
      ResyncTopLevel(l, failed);
      AddressableLater(bodies, failed, l.View());
    } else if hasBody {
      ListAt(l, bodyPos);
      result := bodies + [bodyPos];
    }
  }

  /** First pass: every declaration, recovering from errors, with bodies deferred. */
  method ParseDeclarations(l: Lexer, parser: DeclarationParser) returns (bodies: seq<nat>, errors: nat)
    requires l.Valid() && HonestTop(parser)
    modifies l
    ensures l.Valid() && Addressable(bodies, l.View()) && |bodies| + errors <= old(Measure(l.View()))
    ensures old(Sound(l.View())) && Pass(bodies, errors, l.View()) == old(DeclarationsFrom(parser, [], l.View()))
  {
    hide Sound, Measure, Untouched, AtEnd, Addressable, DeclareTurn, Look;
    ghost var start := l.View();
    bodies, errors := [], 0;
    NoBodies(start);
    while true
      invariant l.Valid() && Addressable(bodies, l.View())
      invariant |bodies| + errors + Measure(l.View()) <= Measure(start)
      invariant Sound(l.View()) && Later(errors, DeclarationsFrom(parser, bodies, l.View())) == DeclarationsFrom(parser, [], start)
      decreases Measure(l.View())
    {
      DeclarationsStep(parser, bodies, l.View());
      var eof := l.IsEOF();
      if eof { return; }
      ghost var here := l.View();
      StartUntouched(here);
      OpProgress(here);
      LookLeft(here);
      var p := Ahead(l, here);
      AddressableLater(bodies, here, l.View());
      if p == EndOfFile { return; }
      var threw;
      bodies, threw := DeclareOrRecover(l, parser, bodies);
      if threw { errors := errors + 1; }
    }
  }

  function Later(errors: nat, p: Pass): Pass {
    p.(errors := errors + p.errors)
  }

  lemma NoBodies(s: Stream)
    ensures Addressable([], s)
  {
  }

  /** The first n bodies, in strictly increasing order, are at opening braces. */
  ghost predicate StillThere(bodies: seq<nat>, n: nat, s: Stream)
    requires n <= |bodies|
  {
    && (forall i :: 0 <= i < n ==> bodies[i] < s.seen <= |s.tokens| && s.tokens[bodies[i]].kind == LBrace)
    && (forall i, j :: 0 <= i < j < |bodies| ==> bodies[i] < bodies[j])
  }

  /** Parsing the last of n bodies leaves the ones before it where they are. */
  lemma EarlierStay(bodies: seq<nat>, n: nat, s: Stream, t: Stream)
    requires 0 < n <= |bodies| && StillThere(bodies, n, s) && s.pos == bodies[n - 1] && Untouched(s, t)
    ensures StillThere(bodies, n - 1, t)
  {
    forall i | 0 <= i < n - 1 ensures t.tokens[bodies[i]] == s.tokens[bodies[i]] && bodies[i] < t.seen {
      assert bodies[i] < bodies[n - 1];
      assert t.tokens[..s.pos][bodies[i]] == s.tokens[..s.pos][bodies[i]];
    }
  }

  /** Parsing body `n`, when the ones after it are done. */
  lemma NextBody(parser: Parser, bodies: seq<nat>, n: nat, s: Stream)
    requires Sound(s) && Honest(parser) && n < |bodies| && StillThere(bodies, n + 1, s)
    ensures var start := Rewound(s, bodies[n]);
      && Sound(start) && At(start).kind == LBrace
      && StillThere(bodies, n, BlockOf(parser, start).after) && Untouched(start, BlockOf(parser, start).after)
  {
    var start := Rewound(s, bodies[n]);
    assert Sound(start);
    assert StillThere(bodies, n + 1, start);
    hide Sound, BlockOf, Untouched, StillThere;
    BlockEnd(parser, start);
    EarlierStay(bodies, n + 1, start, BlockOf(parser, start).after);
    AtBody(bodies, n, start);
  }

  lemma AtBody(bodies: seq<nat>, n: nat, s: Stream)
    requires n < |bodies| && StillThere(bodies, n + 1, s) && s.pos == bodies[n]
    ensures At(s).kind == LBrace && bodies[n] < |s.tokens|
  {
  }

  /** The stream after the bodies from `n` on were parsed, last to first. */
  ghost function BodiesFrom(parser: Parser, bodies: seq<nat>, n: nat, s: Stream): (r: Stream)
    requires Sound(s) && Honest(parser) && n <= |bodies| && StillThere(bodies, |bodies|, s)
    ensures Sound(r) && StillThere(bodies, n, r)
    decreases |bodies| - n
  {
    hide Sound, BlockOf, Untouched, StillThere, Honest;
    if n == |bodies| then s
    else
      var later := BodiesFrom(parser, bodies, n + 1, s);
      NextBody(parser, bodies, n, later);
      BlockOf(parser, Rewound(later, bodies[n])).after
  }

  /** The stream on which body `i` is parsed, in a pass that starts with `s`. */
  ghost function TurnStart(parser: Parser, bodies: seq<nat>, i: nat, s: Stream): (r: Stream)
    requires Sound(s) && Honest(parser) && i < |bodies| && StillThere(bodies, |bodies|, s)
    ensures Sound(r)
  {
    hide Sound, BlockOf, Untouched, StillThere, Honest;
    NextBody(parser, bodies, i, BodiesFrom(parser, bodies, i + 1, s));
    Rewound(BodiesFrom(parser, bodies, i + 1, s), bodies[i])
  }

  /** It is at the opening brace of body `i`, and nothing up to there has changed since the pass began. */
  lemma OwnBrace(parser: Parser, bodies: seq<nat>, i: nat, s: Stream)
    requires Sound(s) && Honest(parser) && i < |bodies| && StillThere(bodies, |bodies|, s)
    ensures AtOwnBrace(bodies[i], TurnStart(parser, bodies, i, s), s)
    ensures BlockOf(parser, TurnStart(parser, bodies, i, s)).after == BodiesFrom(parser, bodies, i, s)
  {
    hide Sound, BlockOf, Untouched, Honest, StillThere;
    var later := BodiesFrom(parser, bodies, i + 1, s);
    NextBody(parser, bodies, i, later);
    AtBody(bodies, i, TurnStart(parser, bodies, i, s)) by { StillRewound(bodies, i + 1, later, bodies[i]); }
    PrefixStays(parser, bodies, i + 1, s, bodies[i] + 1);
  }

  lemma StillRewound(bodies: seq<nat>, n: nat, s: Stream, p: nat)
    requires n <= |bodies| && StillThere(bodies, n, s)
    ensures StillThere(bodies, n, Rewound(s, p))
  {
  }

  /** The stream is at the opening brace at position `p`, as it was and with all that was before it. */
  ghost predicate AtOwnBrace(p: nat, turn: Stream, s: Stream) {
    turn.pos == p < |s.tokens| && p < |turn.tokens| && At(turn).kind == LBrace && turn.tokens[..p + 1] == s.tokens[..p + 1]
  }

  lemma {:induction false} PrefixStays(parser: Parser, bodies: seq<nat>, n: nat, s: Stream, low: nat)
    requires Sound(s) && Honest(parser) && 0 < n <= |bodies| && StillThere(bodies, |bodies|, s) && low == bodies[n - 1] + 1
    ensures low <= |s.tokens| && low <= |BodiesFrom(parser, bodies, n, s).tokens|
    ensures BodiesFrom(parser, bodies, n, s).tokens[..low] == s.tokens[..low]
    decreases |bodies| - n
  {
    hide Sound, BlockOf, Untouched, Honest, StillThere;
    BodyWithin(bodies, n, s);
    if n < |bodies| {
      PrefixStays(parser, bodies, n + 1, s, bodies[n] + 1);
      var later := BodiesFrom(parser, bodies, n + 1, s);
      NextBody(parser, bodies, n, later);
      ShorterPrefix(low, Rewound(later, bodies[n]), BlockOf(parser, Rewound(later, bodies[n])).after, s);
    }
  }

  lemma BodyWithin(bodies: seq<nat>, n: nat, s: Stream)
    requires 0 < n <= |bodies| && StillThere(bodies, |bodies|, s)
    ensures bodies[n - 1] < |s.tokens| && (n < |bodies| ==> bodies[n - 1] < bodies[n])
  {
  }

  lemma ShorterPrefix(low: nat, start: Stream, after: Stream, s: Stream)
    requires low <= start.pos < |s.tokens| && start.pos < |start.tokens| && Untouched(start, after)
    requires start.tokens[..start.pos + 1] == s.tokens[..start.pos + 1]
    ensures low <= |after.tokens| && after.tokens[..low] == s.tokens[..low]
  {
    hide Sound;
    assert after.tokens[..low] == after.tokens[..start.pos][..low];
    assert start.tokens[..low] == start.tokens[..start.pos][..low];
    assert start.tokens[..low] == start.tokens[..start.pos + 1][..low];
    assert s.tokens[..low] == s.tokens[..start.pos + 1][..low];
  }

  /**
   Second pass: the deferred bodies, last to first. Parsing one may insert symbols, but only
   after its own start, so every body is found at its own opening brace.
   */
  method ParseBodies(l: Lexer, bodies: seq<nat>, parser: Parser) returns (found: nat)
    requires l.Valid() && Honest(parser) && Addressable(bodies, l.View())
    modifies l
    ensures l.Valid() && found == |bodies|
    ensures old(Sound(l.View()) && StillThere(bodies, |bodies|, l.View()))
    ensures l.View() == old(BodiesFrom(parser, bodies, 0, l.View()))
    ensures forall i :: 0 <= i < |bodies| ==>
      old(AtOwnBrace(bodies[i], TurnStart(parser, bodies, i, l.View()), l.View()))
  {
    hide Sound, Measure, Untouched, BlockOf;
    found := 0;
    SeenAll(bodies, l.View());
    ghost var before := l.View();
    while found < |bodies|
      invariant found <= |bodies| && l.Valid() && l.View() == BodiesFrom(parser, bodies, |bodies| - found, before)
    {
      var n := |bodies| - found;
      l.SetCurrentPos(bodies[n - 1]);
      ghost var start := l.View();
      OwnBrace(parser, bodies, n - 1, before);
      var ok, atBrace, kept, errors := ParseBlock(l, parser);
      if !atBrace {
        assert false;
      }
      found := found + 1;
    }
    forall i | 0 <= i < |bodies| ensures AtOwnBrace(bodies[i], TurnStart(parser, bodies, i, before), before) {
      OwnBrace(parser, bodies, i, before);
    }
  }

  lemma SeenAll(bodies: seq<nat>, s: Stream)
    requires Sound(s) && Addressable(bodies, s)
    ensures StillThere(bodies, |bodies|, s)
  {
  }

  /** What the second pass starts with. */
  lemma PassRecords(l: Lexer, bodies: seq<nat>)
    requires l.Valid() && Addressable(bodies, l.View())
    ensures Sound(l.View()) && StillThere(bodies, |bodies|, l.View())
  {
    SeenAll(bodies, l.View());
  }

  /**
   Both passes. The first one ends with the stream `middle` and the deferred bodies; the second
   one parses every one of them, at its own opening brace.
   */
  method ParseModule(l: Lexer, declarations: DeclarationParser, statements: Parser)
    returns (bodies: seq<nat>, found: nat, errors: nat, ghost middle: Stream)
    requires l.Valid() && HonestTop(declarations) && Honest(statements)
    modifies l
    ensures l.Valid() && found == |bodies| && |bodies| + errors <= old(Measure(l.View()))
    ensures old(Sound(l.View())) && Pass(bodies, errors, middle) == old(DeclarationsFrom(declarations, [], l.View()))
    ensures old(ResumesAtDeclarations(declarations, [], l.View()))
    ensures Sound(middle) && StillThere(bodies, |bodies|, middle) && l.View() == BodiesFrom(statements, bodies, 0, middle)
    ensures forall i :: 0 <= i < |bodies| ==> AtOwnBrace(bodies[i], TurnStart(statements, bodies, i, middle), middle)
  {
    hide Sound, Measure, Addressable, AtOwnBrace, BodiesFrom, TurnStart, DeclarationsFrom, StillThere,
      ResumesAtDeclarations;
    SoundNow(l);
    Resumes(declarations, [], l.View());
    bodies, errors := ParseDeclarations(l, declarations);
    middle := l.View();
    PassRecords(l, bodies);
    found := ParseBodies(l, bodies, statements);
  }

  lemma SoundNow(l: Lexer)
    requires l.Valid()
    ensures Sound(l.View())
  {
  }

  // ---- The order matters ----

  const OPEN := Symbol(LBrace, "")
  const SHUT := Symbol(RBrace, "")

  /** Two bodies, the first one containing a `>>`. */
  const TWO_BODIES := Stream([OPEN, SHIFT_RIGHT, SHUT, OPEN, SHUT], 0, 5, false)

  /** What parsing the first body does: it reads the brace, closes two argument lists, and goes on. */
  const FIRST_BODY := [Get, SplitShift, Get, Get, Get]

  lemma RunNext(s: Stream, ops: seq<Op>, op: Op)
    ensures Run(s, ops + [op]) == Apply(Run(s, ops), op)
    ensures Allowed(s, ops, 0) && !op.Rewind? ==> Allowed(s, ops + [op], 0)
  {
    assert (ops + [op])[..|ops + [op]| - 1] == ops;
  }

  /** Going first to last, the split in the first body moves the second away from its position. */
  lemma ForwardOrderFails()
    ensures Allowed(TWO_BODIES, FIRST_BODY, 0) && TWO_BODIES.tokens[3] == OPEN
    ensures Run(TWO_BODIES, FIRST_BODY) == Stream([OPEN, CLOSE, CLOSE, SHUT, OPEN, SHUT], 4, 6, false)
    ensures Run(TWO_BODIES, FIRST_BODY).tokens[3] != OPEN
  {
    var s := TWO_BODIES;
    RunNext(s, [], Get);
    assert [] + [Get] == [Get];
    RunNext(s, [Get], SplitShift);
    assert [Get] + [SplitShift] == [Get, SplitShift];
    RunNext(s, [Get, SplitShift], Get);
    assert [Get, SplitShift] + [Get] == [Get, SplitShift, Get];
    RunNext(s, [Get, SplitShift, Get], Get);
    assert [Get, SplitShift, Get] + [Get] == [Get, SplitShift, Get, Get];
    RunNext(s, [Get, SplitShift, Get, Get], Get);
    assert [Get, SplitShift, Get, Get] + [Get] == FIRST_BODY;
    assert Split(s.(pos := 1)).tokens == [OPEN, CLOSE, CLOSE, SHUT, OPEN, SHUT];
  }
}
