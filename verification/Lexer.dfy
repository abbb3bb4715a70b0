/**
 The lexer's replay buffer: a list of the symbols scanned so far with a cursor, a one-symbol
 peek cache, rewinding, and the in-place split of `>>`. It is shown to behave, under every
 sequence of operations, like a plain token stream with a cursor.
 */
module Lexing {
  /** Token kinds. `EndOfFile` is what the program reports as -1. */
  datatype Kind =
    | EndOfFile | Shift | Assign | Greater | Less | Comma | LBrace | RBrace | Semicolon
    | Builtin | Bool | Void | Modifier | Word | Keyword | Starter | Punct

  datatype Symbol = Symbol(kind: Kind, text: string)

  const EOF := Symbol(EndOfFile, "")
  const CLOSE := Symbol(Greater, ">")
  const SHIFT_RIGHT := Symbol(Shift, ">>")

  // ---- The abstract stream ----

  /**
   `tokens`: everything scanned or still in the file, `pos`: the cursor, `seen`: how far the
   file was scanned, `blank`: whether text without tokens is left at the end of the file.
   */
  datatype Stream = Stream(tokens: seq<Symbol>, pos: nat, seen: nat, blank: bool)

  /** The symbol at the cursor; past the end there is only end-of-file. */
  function At(s: Stream): Symbol {
    if s.pos < |s.tokens| then s.tokens[s.pos] else EOF
  }

  /** Looking at a symbol scans it; looking for one at the end of the file finds out. */
  function Look(s: Stream): Stream {
    if s.pos < s.seen then s
    else if s.pos < |s.tokens| then s.(seen := s.pos + 1)
    else Stream(s.tokens + [EOF], s.pos, s.pos + 1, false)
  }

  function Advance(s: Stream): Stream {
    Look(s).(pos := s.pos + 1)
  }

  function Rewound(s: Stream, p: nat): Stream {
    s.(pos := p)
  }

  /** `>>` at the cursor becomes two symbols. */
  function Split(s: Stream): Stream {
    if At(s) == SHIFT_RIGHT then
      var l := Look(s);
      l.(tokens := l.tokens[..s.pos] + [CLOSE, CLOSE] + l.tokens[s.pos + 1..], seen := l.seen + 1)
    else Look(s)
  }

  /** What `isEOF` answers: it cannot see that only blank text is left. */
  predicate AtEnd(s: Stream) {
    if s.pos < s.seen then At(s) == EOF else s.pos == |s.tokens| && !s.blank
  }

  datatype Op = Peek | Get | Rewind(p: nat) | SplitShift

  function Apply(s: Stream, op: Op): Stream {
    match op
    case Peek => Look(s)
    case Get => Advance(s)
    case Rewind(p) => Rewound(s, p)
    case SplitShift => Split(s)
  }

  /** The stream after some operations ... */
  function Run(s: Stream, ops: seq<Op>): Stream
    decreases |ops|
  {
    if ops == [] then s else Apply(Run(s, ops[..|ops| - 1]), ops[|ops| - 1])
  }

  /** ... and the symbols returned by the peeks and gets among them. */
  function Answers(s: Stream, ops: seq<Op>): seq<Symbol>
    decreases |ops|
  {
    if ops == [] then []
    else
      var before := Answers(s, ops[..|ops| - 1]);
      if ops[|ops| - 1].Peek? || ops[|ops| - 1].Get? then before + [At(Run(s, ops[..|ops| - 1]))] else before
  }

  /** Rewinds stay between position `low` and what was scanned. */
  predicate Allowed(s: Stream, ops: seq<Op>, low: nat)
    decreases |ops|
  {
    ops != [] ==>
      && Allowed(s, ops[..|ops| - 1], low)
      && (ops[|ops| - 1].Rewind? ==> low <= ops[|ops| - 1].p <= Run(s, ops[..|ops| - 1]).seen)
  }

  /** Only end-of-file symbols follow an end-of-file symbol, and then the whole file was scanned. */
  predicate Sound(s: Stream) {
    && s.pos <= s.seen <= |s.tokens|
    && forall i :: 0 <= i < |s.tokens| && s.tokens[i].kind == EndOfFile ==>
         s.tokens[i] == EOF && s.seen == |s.tokens| && !s.blank
         && forall j :: i <= j < |s.tokens| ==> s.tokens[j] == EOF
  }

  lemma ApplySound(s: Stream, op: Op)
    requires Sound(s) && (op.Rewind? ==> op.p <= s.seen)
    ensures Sound(Apply(s, op)) && s.seen <= Apply(s, op).seen
  {
  }

  /** Nothing before `low` ever changes. */
  lemma {:induction false} PrefixKept(s: Stream, ops: seq<Op>, low: nat)
    requires Sound(s) && low <= s.pos && Allowed(s, ops, low)
    ensures Sound(Run(s, ops)) && low <= Run(s, ops).pos && s.seen <= Run(s, ops).seen
    ensures |Run(s, ops).tokens| >= |s.tokens| && Run(s, ops).tokens[..low] == s.tokens[..low]
    decreases |ops|
  {
    if ops != [] {
      var init := ops[..|ops| - 1];
      PrefixKept(s, init, low);
      ApplySound(Run(s, init), ops[|ops| - 1]);
      StepPrefix(Run(s, init), ops[|ops| - 1], low);
    }
  }

  lemma StepPrefix(s: Stream, op: Op, low: nat)
    requires Sound(s) && low <= s.pos && (op.Rewind? ==> low <= op.p <= s.seen)
    ensures low <= Apply(s, op).pos && |Apply(s, op).tokens| >= |s.tokens|
    ensures Apply(s, op).tokens[..low] == s.tokens[..low]
  {
  }

  /** Rewriting one place of the list rewrites that place of the stream. */
  lemma SplitList(list: seq<Symbol>, file: seq<Symbol>, pos: nat)
    requires pos < |list|
    ensures (list + file)[pos] == list[pos]
    ensures list[..pos] + [CLOSE, CLOSE] + list[pos + 1..] + file
         == (list + file)[..pos] + [CLOSE, CLOSE] + (list + file)[pos + 1..]
  {
  }

  // ---- The lexer ----

  class Lexer {
    const mFile: seq<Symbol>       // what the scanner finds in the file, in order
    const mTrailing: bool          // blank text or comments after the last symbol
    var mRead: nat                 // symbols scanned from the file
    var mReaderAtEnd: bool
    var mSymbolList: seq<Symbol>
    var mCurrentPos: nat
    var mLastSym: Kind             // the peek cache; EndOfFile when empty
    var mMatchString: string

    constructor (file: seq<Symbol>, trailing: bool)
      requires forall i :: 0 <= i < |file| ==> file[i].kind != EndOfFile
      ensures Valid() && View() == Stream(file, 0, 0, trailing)
    {
      mFile, mTrailing := file, trailing;
      mRead, mReaderAtEnd := 0, file == [] && !trailing;
      mSymbolList, mCurrentPos := [], 0;
      mLastSym, mMatchString := EndOfFile, "";
    }

    /** The stream this lexer stands for. */
    function View(): (s: Stream)
      requires mRead <= |mFile|
      reads this
    {
      Stream(mSymbolList + mFile[mRead..], mCurrentPos, |mSymbolList|, mTrailing && !mReaderAtEnd)
    }

    /** The peek cache agrees with the list. */
    predicate Valid()
      reads this
    {
      && mRead <= |mFile|
      && Sound(View())
      && (forall i :: 0 <= i < |mFile| ==> mFile[i].kind != EndOfFile)
      && (mReaderAtEnd ==> mRead == |mFile|)
      && (!mReaderAtEnd ==> mRead < |mFile| || mTrailing)
      && (mLastSym != EndOfFile ==>
            mCurrentPos < |mSymbolList| && mSymbolList[mCurrentPos] == Symbol(mLastSym, mMatchString))
    }

    /** Scan one symbol from the file. */
    method GetSymbolFromFile() returns (sym: Kind)
      requires Valid() && mCurrentPos == |mSymbolList|
      modifies `mRead, `mReaderAtEnd, `mMatchString
      ensures mRead <= |mFile| && Symbol(sym, mMatchString) == At(old(View()))
      ensures sym != EndOfFile ==> mRead == old(mRead) + 1 && sym == mFile[mRead - 1].kind
      ensures sym != EndOfFile ==> mReaderAtEnd == (mRead == |mFile| && !mTrailing)
      ensures sym == EndOfFile ==> mRead == old(mRead) == |mFile| && mReaderAtEnd
    {
      if mRead < |mFile| {
        sym, mMatchString := mFile[mRead].kind, mFile[mRead].text;
        mRead := mRead + 1;
        mReaderAtEnd := mRead == |mFile| && !mTrailing;
      } else {
        sym, mMatchString := EndOfFile, "";
        mReaderAtEnd := true;
      }
    }

    /** The symbol at the cursor, from the list or the file; its text is in mMatchString. */
    method GetSymbolInternal() returns (sym: Kind)
      requires Valid() && mLastSym == EndOfFile
      modifies `mRead, `mReaderAtEnd, `mSymbolList, `mMatchString
      ensures Valid() && View() == Look(old(View())) && Symbol(sym, mMatchString) == At(old(View()))
      ensures mCurrentPos < |mSymbolList| && mSymbolList[mCurrentPos] == Symbol(sym, mMatchString)
    {
      if mCurrentPos == |mSymbolList| {
        ghost var before := View();
        sym := GetSymbolFromFile();
        mSymbolList := mSymbolList + [Symbol(sym, mMatchString)];
        if sym != EndOfFile {
          assert View().tokens == before.tokens;
        } else {
          assert View().tokens == before.tokens + [EOF];
        }
      } else {
        sym, mMatchString := mSymbolList[mCurrentPos].kind, mSymbolList[mCurrentPos].text;
      }
    }

    method PeekSymbol() returns (sym: Kind)
      requires Valid()
      modifies `mRead, `mReaderAtEnd, `mSymbolList, `mMatchString, `mLastSym
      ensures Valid() && View() == Look(old(View())) && Symbol(sym, mMatchString) == At(old(View()))
      ensures mCurrentPos < |mSymbolList| && sym == mLastSym
    {
      if mLastSym == EndOfFile { mLastSym := GetSymbolInternal(); }
      sym := mLastSym;
    }

    method GetSymbol() returns (sym: Kind)
      requires Valid()
      modifies this
      ensures Valid() && View() == Advance(old(View())) && Symbol(sym, mMatchString) == At(old(View()))
    {
      if mLastSym != EndOfFile {
        sym := mLastSym;
        mLastSym := EndOfFile;
      } else {
        sym := GetSymbolInternal();
      }
      mCurrentPos := mCurrentPos + 1;
    }

    method SplitShiftIntoCloseAngles()
      requires Valid()
      modifies this
      ensures Valid() && View() == Split(old(View()))
    {
      hide Sound;
      ApplySound(View(), SplitShift);
      ghost var start := View();
      var sym := PeekSymbol();
      if mSymbolList[mCurrentPos] != SHIFT_RIGHT { return; }
      ghost var before := View();
      SplitList(mSymbolList, mFile[mRead..], mCurrentPos);
      mSymbolList := mSymbolList[..mCurrentPos] + [CLOSE, CLOSE] + mSymbolList[mCurrentPos + 1..];
      mLastSym := EndOfFile;
      assert View() == Split(start);
    }

    /** Rewind, or come back, to a position scanned before. */
    method SetCurrentPos(p: nat)
      requires Valid() && p <= |mSymbolList|
      modifies `mCurrentPos, `mLastSym
      ensures Valid() && View() == Rewound(old(View()), p)
    {
      mCurrentPos := p;
      mLastSym := EndOfFile;
    }

    /** True only if nothing is left; after a peek, exactly then. */
    method IsEOF() returns (b: bool)
      requires Valid()
      ensures b == AtEnd(View())
      ensures b ==> At(View()) == EOF
      ensures mCurrentPos < |mSymbolList| ==> b == (At(View()) == EOF)
    {
      if mLastSym != EndOfFile { return false; }
      if mCurrentPos < |mSymbolList| { return mSymbolList[mCurrentPos].kind == EndOfFile; }
      b := mReaderAtEnd;
    }

    /** One operation, with the symbol it returns if it returns one. */
    method Do(op: Op) returns (answer: seq<Symbol>)
      requires Valid() && (op.Rewind? ==> op.p <= View().seen)
      modifies this
      ensures Valid() && View() == Apply(old(View()), op)
      ensures answer == if op.Peek? || op.Get? then [At(old(View()))] else []
    {
      hide Sound;
      answer := [];
      match op {
        case Peek =>
          var sym := PeekSymbol();
          answer := [Symbol(sym, mMatchString)];
        case Get =>
          var sym := GetSymbol();
          answer := [Symbol(sym, mMatchString)];
        case Rewind(p) => SetCurrentPos(p);
        case SplitShift => SplitShiftIntoCloseAngles();
      }
    }

    /** Any interleaving of operations answers as the stream does and leaves text before `low` alone. */
    method Execute(ops: seq<Op>, low: nat) returns (answers: seq<Symbol>)
      requires Valid() && low <= mCurrentPos && Allowed(View(), ops, low)
      modifies this
      ensures Valid() && View() == Run(old(View()), ops) && answers == Answers(old(View()), ops)
      ensures low <= mCurrentPos && View().tokens[..low] == old(View().tokens[..low])
    {
      hide Apply, Allowed, Sound, At;
      ValidIsSound();
      answers := [];
      var i := 0;
      while i < |ops|
        invariant i <= |ops| && Valid()
        invariant View() == Run(old(View()), ops[..i]) && answers == Answers(old(View()), ops[..i])
      {
        AllowedStep(old(View()), ops, i, low);
        var more := Do(ops[i]);
        answers := answers + more;
        i := i + 1;
      }
      assert ops[..i] == ops;
      PrefixKept(old(View()), ops, low);
      ValidIsSound();
    }

    lemma ValidIsSound()
      requires Valid()
      ensures Sound(View()) && View().pos == mCurrentPos
    {
    }
  }

  /** The state before an allowed operation allows it. */
  lemma AllowedStep(s: Stream, ops: seq<Op>, i: nat, low: nat)
    requires Sound(s) && low <= s.pos && Allowed(s, ops, low) && i < |ops|
    ensures ops[i].Rewind? ==> ops[i].p <= Run(s, ops[..i]).seen
    ensures Run(s, ops[..i + 1]) == Apply(Run(s, ops[..i]), ops[i])
    ensures Answers(s, ops[..i + 1])
         == Answers(s, ops[..i]) + (if ops[i].Peek? || ops[i].Get? then [At(Run(s, ops[..i]))] else [])
  {
    hide Sound, Apply, At;
    AllowedPrefix(s, ops, i + 1, low);
    assert ops[..i + 1][..i] == ops[..i];
  }

  lemma {:induction false} AllowedPrefix(s: Stream, ops: seq<Op>, i: nat, low: nat)
    requires Allowed(s, ops, low) && i <= |ops|
    ensures Allowed(s, ops[..i], low)
    decreases |ops|
  {
    if i == |ops| {
      assert ops[..i] == ops;
    } else {
      AllowedPrefix(s, ops[..|ops| - 1], i, low);
      assert ops[..|ops| - 1][..i] == ops[..i];
    }
  }
}
