/**
 The seven scope stacks of the code generator, one per kind of counted value. A return
 releases exactly what leaving every open block, one after the other, would release.
 */
module ScopeStacks {
  datatype Kind = Arc | Str | Arr | Buf | Lambda | Struct | Enum

  datatype Option<T> = None | Some(value: T)

  /** A tracked slot; `def` is the variable that may be moved, for the kinds that record it. */
  datatype Entry = Entry(slot: nat, def: Option<nat>)

  datatype Release = Release(kind: Kind, slot: nat)

  type Stack = seq<seq<Entry>>

  datatype Stacks = Stacks(arc: Stack, str: Stack, arr: Stack, buf: Stack, lambda: Stack, struct: Stack, enum: Stack)

  // ---- What is released ----

  /** Only four kinds look at the moved set. */
  predicate IsMoved(k: Kind, e: Entry, moved: set<nat>) {
    (k.Str? || k.Arr? || k.Buf? || k.Lambda?) && e.def.Some? && e.def.value in moved
  }

  /** One scope, in declaration order, skipping moved variables. */
  function OfScope(k: Kind, scope: seq<Entry>, moved: set<nat>): seq<Release> {
    if scope == [] then []
    else
      OfScope(k, scope[..|scope| - 1], moved)
      + (if IsMoved(k, scope[|scope| - 1], moved) then [] else [Release(k, scope[|scope| - 1].slot)])
  }

  /** A whole stack, innermost scope first. */
  function OfStack(k: Kind, stack: Stack, moved: set<nat>): seq<Release> {
    if stack == [] then [] else OfScope(k, stack[|stack| - 1], moved) + OfStack(k, stack[..|stack| - 1], moved)
  }

  function Back(stack: Stack): seq<Entry>
    requires stack != []
  {
    stack[|stack| - 1]
  }

  function Init(stack: Stack): Stack
    requires stack != []
  {
    stack[..|stack| - 1]
  }

  /** Before a return: kind by kind, all scopes of each. */
  function OnReturn(s: Stacks, moved: set<nat>): seq<Release> {
    OfStack(Arc, s.arc, moved) + OfStack(Str, s.str, moved) + OfStack(Arr, s.arr, moved) + OfStack(Buf, s.buf, moved)
    + OfStack(Lambda, s.lambda, moved) + OfStack(Struct, s.struct, moved) + OfStack(Enum, s.enum, moved)
  }

  predicate AllOpen(s: Stacks) {
    && s.arc != [] && s.str != [] && s.arr != [] && s.buf != [] && s.lambda != [] && s.struct != [] && s.enum != []
  }

  /** At the end of a block: the innermost scope of every kind. */
  function OnExit(s: Stacks, moved: set<nat>): seq<Release>
    requires AllOpen(s)
  {
    OfScope(Arc, Back(s.arc), moved) + OfScope(Str, Back(s.str), moved) + OfScope(Arr, Back(s.arr), moved)
    + OfScope(Buf, Back(s.buf), moved) + OfScope(Lambda, Back(s.lambda), moved) + OfScope(Struct, Back(s.struct), moved)
    + OfScope(Enum, Back(s.enum), moved)
  }

  function Popped(s: Stacks): Stacks
    requires AllOpen(s)
  {
    Stacks(Init(s.arc), Init(s.str), Init(s.arr), Init(s.buf), Init(s.lambda), Init(s.struct), Init(s.enum))
  }

  function Opened(s: Stacks): Stacks {
    Stacks(s.arc + [[]], s.str + [[]], s.arr + [[]], s.buf + [[]], s.lambda + [[]], s.struct + [[]], s.enum + [[]])
  }

  /** Inside a function, three of the stacks have a scope of their own for the parameters. */
  predicate Aligned(s: Stacks, params: nat) {
    && |s.lambda| == |s.arc| && |s.struct| == |s.arc| && |s.enum| == |s.arc|
    && |s.str| == |s.arc| + params && |s.arr| == |s.arc| + params && |s.buf| == |s.arc| + params
  }

  /** A block that has declared nothing leaves the stacks as it found them, and releases nothing. */
  lemma OpenedThenLeft(s: Stacks, moved: set<nat>)
    ensures AllOpen(Opened(s)) && Popped(Opened(s)) == s && OnExit(Opened(s), moved) == []
  {
    hide OfStack;
    forall k: Kind ensures OfScope(k, [], moved) == [] {}
    hide OfScope;
  }

  /** Leaving every open block in turn, and then the parameters. */
  function FallingOut(s: Stacks, params: nat, moved: set<nat>): seq<Release>
    requires Aligned(s, params)
    decreases |s.arc|
  {
    if s.arc == [] then OfStack(Str, s.str, moved) + OfStack(Arr, s.arr, moved) + OfStack(Buf, s.buf, moved)
    else OnExit(s, moved) + FallingOut(Popped(s), params, moved)
  }

  // ---- The result ----

  lemma StackSplit(k: Kind, stack: Stack, moved: set<nat>)
    requires stack != []
    ensures multiset(OfStack(k, stack, moved))
         == multiset(OfScope(k, Back(stack), moved)) + multiset(OfStack(k, Init(stack), moved))
  {
  }

  lemma Joined<T>(a0: seq<T>, a1: seq<T>, a2: seq<T>, a3: seq<T>, a4: seq<T>, a5: seq<T>, a6: seq<T>)
    ensures multiset(a0 + a1 + a2 + a3 + a4 + a5 + a6)
         == multiset(a0) + multiset(a1) + multiset(a2) + multiset(a3) + multiset(a4) + multiset(a5) + multiset(a6)
  {
  }

  lemma Regroup<T>(a0: multiset<T>, a1: multiset<T>, a2: multiset<T>, a3: multiset<T>, a4: multiset<T>, a5: multiset<T>, a6: multiset<T>,
                   b0: multiset<T>, b1: multiset<T>, b2: multiset<T>, b3: multiset<T>, b4: multiset<T>, b5: multiset<T>, b6: multiset<T>)
    ensures (a0 + b0) + (a1 + b1) + (a2 + b2) + (a3 + b3) + (a4 + b4) + (a5 + b5) + (a6 + b6)
         == a0 + a1 + a2 + a3 + a4 + a5 + a6 + (b0 + b1 + b2 + b3 + b4 + b5 + b6)
  {
  }

  lemma ReturnSplits(s: Stacks, moved: set<nat>)
    requires AllOpen(s)
    ensures multiset(OnReturn(s, moved)) == multiset(OnExit(s, moved)) + multiset(OnReturn(Popped(s), moved))
  {
    hide OfScope, OfStack;
    StackSplit(Arc, s.arc, moved);
    StackSplit(Str, s.str, moved);
    StackSplit(Arr, s.arr, moved);
    StackSplit(Buf, s.buf, moved);
    StackSplit(Lambda, s.lambda, moved);
    StackSplit(Struct, s.struct, moved);
    StackSplit(Enum, s.enum, moved);
    ReturnJoins(s, moved);
    ReturnJoins(Popped(s), moved);
    ExitJoins(s, moved);
    hide OnReturn, OnExit;
    Regroup(multiset(OfScope(Arc, Back(s.arc), moved)), multiset(OfScope(Str, Back(s.str), moved)),
            multiset(OfScope(Arr, Back(s.arr), moved)), multiset(OfScope(Buf, Back(s.buf), moved)),
            multiset(OfScope(Lambda, Back(s.lambda), moved)), multiset(OfScope(Struct, Back(s.struct), moved)),
            multiset(OfScope(Enum, Back(s.enum), moved)),
            multiset(OfStack(Arc, Init(s.arc), moved)), multiset(OfStack(Str, Init(s.str), moved)),
            multiset(OfStack(Arr, Init(s.arr), moved)), multiset(OfStack(Buf, Init(s.buf), moved)),
            multiset(OfStack(Lambda, Init(s.lambda), moved)), multiset(OfStack(Struct, Init(s.struct), moved)),
            multiset(OfStack(Enum, Init(s.enum), moved)));
  }

  lemma ReturnJoins(s: Stacks, moved: set<nat>)
    ensures multiset(OnReturn(s, moved))
         == multiset(OfStack(Arc, s.arc, moved)) + multiset(OfStack(Str, s.str, moved))
            + multiset(OfStack(Arr, s.arr, moved)) + multiset(OfStack(Buf, s.buf, moved))
            + multiset(OfStack(Lambda, s.lambda, moved)) + multiset(OfStack(Struct, s.struct, moved))
            + multiset(OfStack(Enum, s.enum, moved))
  {
    hide OfStack;
    Joined(OfStack(Arc, s.arc, moved), OfStack(Str, s.str, moved), OfStack(Arr, s.arr, moved),
           OfStack(Buf, s.buf, moved), OfStack(Lambda, s.lambda, moved), OfStack(Struct, s.struct, moved),
           OfStack(Enum, s.enum, moved));
  }

  lemma ExitJoins(s: Stacks, moved: set<nat>)
    requires AllOpen(s)
    ensures multiset(OnExit(s, moved))
         == multiset(OfScope(Arc, Back(s.arc), moved)) + multiset(OfScope(Str, Back(s.str), moved))
            + multiset(OfScope(Arr, Back(s.arr), moved)) + multiset(OfScope(Buf, Back(s.buf), moved))
            + multiset(OfScope(Lambda, Back(s.lambda), moved)) + multiset(OfScope(Struct, Back(s.struct), moved))
            + multiset(OfScope(Enum, Back(s.enum), moved))
  {
    hide OfScope;
    Joined(OfScope(Arc, Back(s.arc), moved), OfScope(Str, Back(s.str), moved), OfScope(Arr, Back(s.arr), moved),
           OfScope(Buf, Back(s.buf), moved), OfScope(Lambda, Back(s.lambda), moved),
           OfScope(Struct, Back(s.struct), moved), OfScope(Enum, Back(s.enum), moved));
  }

  /** A return releases, as a multiset over all seven kinds, what falling out of every block releases. */
  lemma {:induction false} ReturnIsFallingOut(s: Stacks, params: nat, moved: set<nat>)
    requires Aligned(s, params)
    ensures multiset(OnReturn(s, moved)) == multiset(FallingOut(s, params, moved))
    decreases |s.arc|
  {
    hide OfScope, OfStack;
    if s.arc == [] {
      NoBlocks(s, params, moved);
    } else {
      hide OnReturn, OnExit;
      ReturnSplits(s, moved);
      ReturnIsFallingOut(Popped(s), params, moved);
    }
  }

  lemma NoBlocks(s: Stacks, params: nat, moved: set<nat>)
    requires Aligned(s, params) && s.arc == []
    ensures OnReturn(s, moved) == FallingOut(s, params, moved)
  {
    hide OfScope;
    assert OfStack(Arc, s.arc, moved) == OfStack(Lambda, s.lambda, moved) == [];
    assert OfStack(Struct, s.struct, moved) == OfStack(Enum, s.enum, moved) == [];
  }

  // ---- Exactly once ----

  /** The slots of a stack that are tracked and not moved. */
  function Held(k: Kind, stack: Stack, moved: set<nat>): multiset<nat> {
    if stack == [] then multiset{} else HeldIn(k, Back(stack), moved) + Held(k, Init(stack), moved)
  }

  function HeldIn(k: Kind, scope: seq<Entry>, moved: set<nat>): multiset<nat> {
    if scope == [] then multiset{}
    else
      HeldIn(k, scope[..|scope| - 1], moved)
      + (if IsMoved(k, scope[|scope| - 1], moved) then multiset{} else multiset{scope[|scope| - 1].slot})
  }

  lemma {:induction false} ScopeReleases(k: Kind, scope: seq<Entry>, moved: set<nat>, r: Release)
    ensures multiset(OfScope(k, scope, moved))[r] == if r.kind == k then HeldIn(k, scope, moved)[r.slot] else 0
    decreases |scope|
  {
    if scope != [] { ScopeReleases(k, scope[..|scope| - 1], moved, r); }
  }

  /** Every tracked, unmoved slot of a kind is released as often as it is tracked, and nothing else. */
  lemma {:induction false} StackReleases(k: Kind, stack: Stack, moved: set<nat>, r: Release)
    ensures multiset(OfStack(k, stack, moved))[r] == if r.kind == k then Held(k, stack, moved)[r.slot] else 0
    decreases |stack|
  {
    if stack != [] {
      ScopeReleases(k, Back(stack), moved, r);
      StackReleases(k, Init(stack), moved, r);
    }
  }

  function OfKind(s: Stacks, k: Kind): Stack {
    match k
    case Arc => s.arc
    case Str => s.str
    case Arr => s.arr
    case Buf => s.buf
    case Lambda => s.lambda
    case Struct => s.struct
    case Enum => s.enum
  }

  lemma ReturnHolds(s: Stacks, moved: set<nat>, r: Release)
    ensures multiset(OnReturn(s, moved))[r] == Held(r.kind, OfKind(s, r.kind), moved)[r.slot]
  {
    StackReleases(Arc, s.arc, moved, r);
    StackReleases(Str, s.str, moved, r);
    StackReleases(Arr, s.arr, moved, r);
    StackReleases(Buf, s.buf, moved, r);
    StackReleases(Lambda, s.lambda, moved, r);
    StackReleases(Struct, s.struct, moved, r);
    StackReleases(Enum, s.enum, moved, r);
    hide OfStack, Held;
  }

  /** All entries of a stack, outermost scope first. */
  function Entries(stack: Stack): seq<Entry> {
    if stack == [] then [] else Entries(Init(stack)) + Back(stack)
  }

  predicate Stands(k: Kind, e: Entry, moved: set<nat>, slot: nat) {
    e.slot == slot && !IsMoved(k, e, moved)
  }

  /** The positions at which a slot is tracked and not moved. */
  function Places(k: Kind, es: seq<Entry>, moved: set<nat>, slot: nat): set<nat> {
    set i: nat | i < |es| && Stands(k, es[i], moved, slot)
  }

  lemma {:induction false} ScopePlaces(k: Kind, es: seq<Entry>, moved: set<nat>, slot: nat)
    ensures |Places(k, es, moved, slot)| == HeldIn(k, es, moved)[slot]
    decreases |es|
  {
    if es == [] {
      assert Places(k, es, moved, slot) == {};
    } else {
      ScopePlaces(k, es[..|es| - 1], moved, slot);
      LastPlace(k, es, moved, slot);
      hide IsMoved;
    }
  }

  lemma LastPlace(k: Kind, es: seq<Entry>, moved: set<nat>, slot: nat)
    requires es != []
    ensures |Places(k, es, moved, slot)|
         == |Places(k, es[..|es| - 1], moved, slot)| + (if Stands(k, es[|es| - 1], moved, slot) then 1 else 0)
  {
    hide Stands;
    var n := |es| - 1;
    var before := Places(k, es[..n], moved, slot);
    if Stands(k, es[n], moved, slot) {
      assert Places(k, es, moved, slot) == before + {n};
      assert n !in before;
    } else {
      assert Places(k, es, moved, slot) == before;
    }
  }

  lemma {:induction false} HeldAppend(k: Kind, a: seq<Entry>, b: seq<Entry>, moved: set<nat>)
    ensures HeldIn(k, a + b, moved) == HeldIn(k, a, moved) + HeldIn(k, b, moved)
    decreases |b|
  {
    hide IsMoved;
    if b == [] {
      assert a + b == a;
    } else {
      assert (a + b)[..|a + b| - 1] == a + b[..|b| - 1];
      HeldAppend(k, a, b[..|b| - 1], moved);
    }
  }

  lemma {:induction false} HeldEntries(k: Kind, stack: Stack, moved: set<nat>)
    ensures Held(k, stack, moved) == HeldIn(k, Entries(stack), moved)
    decreases |stack|
  {
    hide HeldIn;
    if stack != [] {
      HeldEntries(k, Init(stack), moved);
      HeldAppend(k, Entries(Init(stack)), Back(stack), moved);
    } else {
      HeldNothing(k, moved);
    }
  }

  lemma HeldNothing(k: Kind, moved: set<nat>)
    ensures HeldIn(k, [], moved) == multiset{}
  {
  }

  lemma ReturnPlaces(s: Stacks, moved: set<nat>, r: Release)
    ensures multiset(OnReturn(s, moved))[r] == |Places(r.kind, Entries(OfKind(s, r.kind)), moved, r.slot)|
  {
    hide OnReturn, Places, Held, HeldIn, Entries;
    ReturnHolds(s, moved, r);
    HeldEntries(r.kind, OfKind(s, r.kind), moved);
    ScopePlaces(r.kind, Entries(OfKind(s, r.kind)), moved, r.slot);
  }

  /** The positions of a slot ... */
  function Occurrences(es: seq<Entry>, slot: nat): set<nat> {
    set i: nat | i < |es| && es[i].slot == slot
  }

  /** ... and those at which it does not hold a moved variable. */
  function Unmoved(es: seq<Entry>, slot: nat, moved: set<nat>): set<nat> {
    set i: nat | i < |es| && es[i].slot == slot && (es[i].def.Some? ==> es[i].def.value !in moved)
  }

  /** How often a slot with these entries is to be released. */
  function Due(r: Release, es: seq<Entry>, moved: set<nat>): nat {
    match r.kind
    case Str => |Unmoved(es, r.slot, moved)|
    case Arr => |Unmoved(es, r.slot, moved)|
    case Buf => |Unmoved(es, r.slot, moved)|
    case Lambda => |Unmoved(es, r.slot, moved)|
    case Arc => |Occurrences(es, r.slot)|
    case Struct => |Occurrences(es, r.slot)|
    case Enum => |Occurrences(es, r.slot)|
  }

  lemma PlacesAreDue(r: Release, es: seq<Entry>, moved: set<nat>)
    ensures |Places(r.kind, es, moved, r.slot)| == Due(r, es, moved)
  {
    if r.kind.Str? || r.kind.Arr? || r.kind.Buf? || r.kind.Lambda? {
      assert Places(r.kind, es, moved, r.slot) == Unmoved(es, r.slot, moved);
    } else {
      assert Places(r.kind, es, moved, r.slot) == Occurrences(es, r.slot);
    }
  }

  /**
   A return releases a string, array, buffer or lambda slot once for each place in the scopes of
   its kind where it does not hold a moved variable, any other slot once for each place whatever
   was moved, and nothing else.
   */
  lemma ReturnReleases(s: Stacks, moved: set<nat>, r: Release)
    ensures multiset(OnReturn(s, moved))[r] == Due(r, Entries(OfKind(s, r.kind)), moved)
  {
    hide OnReturn, Places, Due, Entries;
    ReturnPlaces(s, moved, r);
    PlacesAreDue(r, Entries(OfKind(s, r.kind)), moved);
  }

  /** Leaving a block does the same for its innermost scopes. */
  lemma ExitReleases(s: Stacks, moved: set<nat>, r: Release)
    requires AllOpen(s)
    ensures multiset(OnExit(s, moved))[r] == Due(r, Back(OfKind(s, r.kind)), moved)
  {
    ScopeReleases(Arc, Back(s.arc), moved, r);
    ScopeReleases(Str, Back(s.str), moved, r);
    ScopeReleases(Arr, Back(s.arr), moved, r);
    ScopeReleases(Buf, Back(s.buf), moved, r);
    ScopeReleases(Lambda, Back(s.lambda), moved, r);
    ScopeReleases(Struct, Back(s.struct), moved, r);
    ScopeReleases(Enum, Back(s.enum), moved, r);
    ExitJoins(s, moved);
    hide OnExit, OfScope, HeldIn, Places, Due;
    ScopePlaces(r.kind, Back(OfKind(s, r.kind)), moved, r.slot);
    PlacesAreDue(r, Back(OfKind(s, r.kind)), moved);
  }

  /** A slot that holds only moved variables is not released, neither on return nor on exit. */
  lemma MovedIsNotReleased(s: Stacks, moved: set<nat>, k: Kind, slot: nat)
    requires k in {Str, Arr, Buf, Lambda}
    requires forall e :: e in Entries(OfKind(s, k)) && e.slot == slot ==> e.def.Some? && e.def.value in moved
    ensures Release(k, slot) !in OnReturn(s, moved)
    ensures AllOpen(s) ==> Release(k, slot) !in OnExit(s, moved)
  {
    hide OnReturn, OnExit, Entries;
    var es := Entries(OfKind(s, k));
    ReturnReleases(s, moved, Release(k, slot));
    assert Unmoved(es, slot, moved) == {};
    assert Release(k, slot) !in multiset(OnReturn(s, moved));
    if AllOpen(s) {
      var back := Back(OfKind(s, k));
      BackIsLast(OfKind(s, k));
      ExitReleases(s, moved, Release(k, slot));
      assert Unmoved(back, slot, moved) == {} by {
        forall i | 0 <= i < |back| ensures back[i] in es {}
      }
      assert Release(k, slot) !in multiset(OnExit(s, moved));
    }
  }

  lemma BackIsLast(stack: Stack)
    requires stack != []
    ensures Entries(stack) == Entries(Init(stack)) + Back(stack)
  {
  }

  // ---- The order ----

  lemma {:induction false} ScopeOrder(k: Kind, a: seq<Entry>, b: seq<Entry>, moved: set<nat>)
    ensures OfScope(k, a + b, moved) == OfScope(k, a, moved) + OfScope(k, b, moved)
    decreases |b|
  {
    hide IsMoved;
    if b == [] {
      assert a + b == a && OfScope(k, a, moved) + [] == OfScope(k, a, moved);
    } else {
      assert (a + b)[..|a + b| - 1] == a + b[..|b| - 1];
      ScopeOrder(k, a, b[..|b| - 1], moved);
    }
  }

  /** Inner scopes are released before outer ones, and in a scope what was declared first goes first. */
  lemma {:induction false} InnermostFirst(k: Kind, outer: Stack, inner: Stack, moved: set<nat>)
    ensures OfStack(k, outer + inner, moved) == OfStack(k, inner, moved) + OfStack(k, outer, moved)
    ensures forall a, b :: OfScope(k, a + b, moved) == OfScope(k, a, moved) + OfScope(k, b, moved)
    decreases |inner|
  {
    forall a, b ensures OfScope(k, a + b, moved) == OfScope(k, a, moved) + OfScope(k, b, moved) {
      ScopeOrder(k, a, b, moved);
    }
    hide OfScope;
    if inner == [] {
      assert outer + inner == outer && [] + OfStack(k, outer, moved) == OfStack(k, outer, moved);
    } else {
      assert (outer + inner)[..|outer + inner| - 1] == outer + inner[..|inner| - 1];
      InnermostFirst(k, outer, inner[..|inner| - 1], moved);
    }
  }

  /** The place of a kind in the order of a return. */
  function Rank(k: Kind): nat {
    match k
    case Arc => 0
    case Str => 1
    case Arr => 2
    case Buf => 3
    case Lambda => 4
    case Struct => 5
    case Enum => 6
  }

  /** Only the first n kinds, one after the other. */
  predicate KindByKind(rs: seq<Release>, n: nat) {
    && (forall i :: 0 <= i < |rs| ==> Rank(rs[i].kind) < n)
    && (forall i, j :: 0 <= i < j < |rs| ==> Rank(rs[i].kind) <= Rank(rs[j].kind))
  }

  lemma {:induction false} OneKind(k: Kind, stack: Stack, moved: set<nat>)
    ensures forall r :: r in OfStack(k, stack, moved) ==> r.kind == k
    decreases |stack|
  {
    if stack != [] {
      forall r | r in OfScope(k, Back(stack), moved) ensures r.kind == k {
        ScopeReleases(k, Back(stack), moved, r);
        assert r in multiset(OfScope(k, Back(stack), moved));
      }
      OneKind(k, Init(stack), moved);
    }
  }

  lemma NextKind(rs: seq<Release>, n: nat, more: seq<Release>)
    requires KindByKind(rs, n) && forall r :: r in more ==> Rank(r.kind) == n
    ensures KindByKind(rs + more, n + 1)
  {
    hide Rank;
    var all := rs + more;
    forall i | 0 <= i < |all| ensures if i < |rs| then Rank(all[i].kind) < n else Rank(all[i].kind) == n {
      assert i >= |rs| ==> all[i] in more;
    }
  }

  lemma ReturnIsKindByKind(s: Stacks, moved: set<nat>)
    ensures KindByKind(OnReturn(s, moved), 7)
  {
    hide OfStack, KindByKind;
    OneKind(Arc, s.arc, moved);
    OneKind(Str, s.str, moved);
    OneKind(Arr, s.arr, moved);
    OneKind(Buf, s.buf, moved);
    OneKind(Lambda, s.lambda, moved);
    OneKind(Struct, s.struct, moved);
    OneKind(Enum, s.enum, moved);
    var r0 := [];
    NoKinds();
    NextKind(r0, 0, OfStack(Arc, s.arc, moved));
    assert r0 + OfStack(Arc, s.arc, moved) == OfStack(Arc, s.arc, moved);
    var r1 := OfStack(Arc, s.arc, moved);
    NextKind(r1, 1, OfStack(Str, s.str, moved));
    var r2 := r1 + OfStack(Str, s.str, moved);
    NextKind(r2, 2, OfStack(Arr, s.arr, moved));
    var r3 := r2 + OfStack(Arr, s.arr, moved);
    NextKind(r3, 3, OfStack(Buf, s.buf, moved));
    var r4 := r3 + OfStack(Buf, s.buf, moved);
    NextKind(r4, 4, OfStack(Lambda, s.lambda, moved));
    var r5 := r4 + OfStack(Lambda, s.lambda, moved);
    NextKind(r5, 5, OfStack(Struct, s.struct, moved));
    NextKind(r5 + OfStack(Struct, s.struct, moved), 6, OfStack(Enum, s.enum, moved));
  }

  lemma NoKinds()
    ensures KindByKind([], 0)
  {
  }

  lemma Appended<T>(e: seq<T>, a0: seq<T>, a1: seq<T>, a2: seq<T>, a3: seq<T>, a4: seq<T>, a5: seq<T>, a6: seq<T>)
    ensures e + a0 + a1 + a2 + a3 + a4 + a5 + a6 == e + (a0 + a1 + a2 + a3 + a4 + a5 + a6)
  {
  }

  // ---- The stacks as the generator keeps them ----

  /** A parameter: its slot, whether it is owned, and the kind of its type if that is counted. */
  datatype Parameter = Parameter(entry: Entry, own: bool, kind: Option<Kind>)

  /** The slots of the own parameters of a kind, in order. */
  function OwnOf(params: seq<Parameter>, k: Kind): seq<Entry> {
    if params == [] then []
    else
      OwnOf(params[..|params| - 1], k)
      + (if params[|params| - 1].own && params[|params| - 1].kind == Some(k) then [params[|params| - 1].entry] else [])
  }

  /** The scopes of a function's own strings, arrays and buffers; the other four stacks have none. */
  function WithParameters(s: Stacks, params: seq<Parameter>): Stacks {
    s.(str := s.str + [OwnOf(params, Str)], arr := s.arr + [OwnOf(params, Arr)], buf := s.buf + [OwnOf(params, Buf)])
  }

  lemma OwnStep(s: Stacks, params: seq<Parameter>, i: nat)
    requires i < |params|
    ensures
      var p := params[i];
      var before := WithParameters(s, params[..i]);
      && before.str != [] && before.arr != [] && before.buf != []
      && WithParameters(s, params[..i + 1])
         == if !p.own then before
            else if p.kind == Some(Str) then before.(str := PushBack(before.str, p.entry))
            else if p.kind == Some(Arr) then before.(arr := PushBack(before.arr, p.entry))
            else if p.kind == Some(Buf) then before.(buf := PushBack(before.buf, p.entry))
            else before
  {
    hide OwnOf;
    OneMore(params, i, Str);
    OneMore(params, i, Arr);
    OneMore(params, i, Buf);
    PushedBack(s.str, OwnOf(params[..i], Str), params[i].entry);
    PushedBack(s.arr, OwnOf(params[..i], Arr), params[i].entry);
    PushedBack(s.buf, OwnOf(params[..i], Buf), params[i].entry);
  }

  lemma OneMore(params: seq<Parameter>, i: nat, k: Kind)
    requires i < |params|
    ensures OwnOf(params[..i + 1], k)
         == if params[i].own && params[i].kind == Some(k) then OwnOf(params[..i], k) + [params[i].entry] else OwnOf(params[..i], k)
  {
    assert params[..i + 1][..i] == params[..i];
    assert OwnOf(params[..i], k) + [] == OwnOf(params[..i], k);
  }

  lemma PushedBack(stack: Stack, scope: seq<Entry>, e: Entry)
    ensures PushBack(stack + [scope], e) == stack + [scope + [e]]
  {
    assert Init(stack + [scope]) == stack;
  }

  function PushBack(stack: Stack, e: Entry): Stack
    requires stack != []
  {
    Init(stack) + [Back(stack) + [e]]
  }

  lemma LastUnmoved(es: seq<Entry>, e: Entry, slot: nat, moved: set<nat>)
    ensures |Unmoved(es + [e], slot, moved)|
         == |Unmoved(es, slot, moved)| + (if e.slot == slot && (e.def.Some? ==> e.def.value !in moved) then 1 else 0)
  {
    if e.slot == slot && (e.def.Some? ==> e.def.value !in moved) {
      assert Unmoved(es + [e], slot, moved) == Unmoved(es, slot, moved) + {|es|};
    } else {
      assert Unmoved(es + [e], slot, moved) == Unmoved(es, slot, moved);
    }
  }

  predicate Owns(p: Parameter, k: Kind, slot: nat, moved: set<nat>) {
    p.own && p.kind == Some(k) && p.entry.slot == slot && (p.entry.def.Some? ==> p.entry.def.value !in moved)
  }

  lemma LastOwned(params: seq<Parameter>, k: Kind, slot: nat, moved: set<nat>)
    requires params != []
    ensures |OwnedBy(params, k, slot, moved)|
         == |OwnedBy(params[..|params| - 1], k, slot, moved)| + (if Owns(params[|params| - 1], k, slot, moved) then 1 else 0)
  {
    hide Owns;
    var n := |params| - 1;
    var before := OwnedBy(params[..n], k, slot, moved);
    if Owns(params[n], k, slot, moved) {
      assert OwnedBy(params, k, slot, moved) == before + {n};
    } else {
      assert OwnedBy(params, k, slot, moved) == before;
    }
  }

  lemma {:induction false} OwnUnmoved(params: seq<Parameter>, k: Kind, slot: nat, moved: set<nat>)
    ensures |Unmoved(OwnOf(params, k), slot, moved)| == |OwnedBy(params, k, slot, moved)|
    decreases |params|
  {
    hide Unmoved, OwnedBy;
    if params == [] {
      NothingOwned(k, slot, moved);
    } else {
      var n := |params| - 1;
      OwnUnmoved(params[..n], k, slot, moved);
      LastOwned(params, k, slot, moved);
      LastUnmoved(OwnOf(params[..n], k), params[n].entry, slot, moved);
      assert OwnOf(params[..n], k) + [] == OwnOf(params[..n], k);
    }
  }

  lemma NothingOwned(k: Kind, slot: nat, moved: set<nat>)
    ensures Unmoved(OwnOf([], k), slot, moved) == {} == OwnedBy([], k, slot, moved)
  {
  }

  /** The own parameters of a kind that are in a slot and not moved. */
  function OwnedBy(params: seq<Parameter>, k: Kind, slot: nat, moved: set<nat>): set<nat> {
    set i: nat | i < |params| && Owns(params[i], k, slot, moved)
  }

  const CLOSED := Stacks([], [], [], [], [], [], [])

  /**
   What a function owns by its parameters: a return outside of all blocks releases each own
   string, array and buffer that was not moved, once, and no other parameter.
   */
  lemma ParametersAreReleased(params: seq<Parameter>, moved: set<nat>, r: Release)
    ensures multiset(OnReturn(WithParameters(CLOSED, params), moved))[r]
         == if r.kind in {Str, Arr, Buf} then |OwnedBy(params, r.kind, r.slot, moved)| else 0
  {
    hide OnReturn, OwnOf, OwnedBy;
    var s := WithParameters(CLOSED, params);
    ReturnReleases(s, moved, r);
    OneScope(OwnOf(params, r.kind));
    OwnUnmoved(params, r.kind, r.slot, moved);
    assert s.str == [OwnOf(params, Str)] && s.arr == [OwnOf(params, Arr)] && s.buf == [OwnOf(params, Buf)];
    assert Entries([]) == [];
    assert Unmoved([], r.slot, moved) == {} == Occurrences([], r.slot);
  }

  lemma OneScope(scope: seq<Entry>)
    ensures Entries([scope]) == scope
  {
    assert Init([scope]) == [] && [] + scope == scope;
  }

  class Tracker {
    var mArcScopeStack: Stack
    var mStringScopeStack: Stack
    var mArrayScopeStack: Stack
    var mBufferScopeStack: Stack
    var mLambdaScopeStack: Stack
    var mStructScopeStack: Stack
    var mEnumScopeStack: Stack
    var mMovedVariables: set<nat>
    var mEmitted: seq<Release>

    constructor ()
      ensures View() == Stacks([], [], [], [], [], [], []) && mMovedVariables == {} && mEmitted == []
    {
      mArcScopeStack, mStringScopeStack, mArrayScopeStack, mBufferScopeStack := [], [], [], [];
      mLambdaScopeStack, mStructScopeStack, mEnumScopeStack := [], [], [];
      mMovedVariables, mEmitted := {}, [];
    }

    function View(): Stacks
      reads this
    {
      Stacks(mArcScopeStack, mStringScopeStack, mArrayScopeStack, mBufferScopeStack, mLambdaScopeStack,
             mStructScopeStack, mEnumScopeStack)
    }

    /** A function opens a scope for its own strings, arrays and buffers in three of the stacks. */
    method EnterFunction(params: seq<Parameter>)
      requires Aligned(View(), 0)
      modifies this
      ensures Aligned(View(), 1) && mEmitted == old(mEmitted) && mMovedVariables == old(mMovedVariables)
      ensures View() == WithParameters(old(View()), params)
    {
      mStringScopeStack := mStringScopeStack + [[]];
      mArrayScopeStack := mArrayScopeStack + [[]];
      mBufferScopeStack := mBufferScopeStack + [[]];
      var i := 0;
      while i < |params|
        invariant i <= |params| && mEmitted == old(mEmitted) && mMovedVariables == old(mMovedVariables)
        invariant View() == WithParameters(old(View()), params[..i])
      {
        assert params[..i + 1][..i] == params[..i];
        var p := params[i];
        OwnStep(old(View()), params, i);
        i := i + 1;
        if !p.own { continue; }
        if p.kind == Some(Str) {
          mStringScopeStack := PushBack(mStringScopeStack, p.entry);
        } else if p.kind == Some(Arr) {
          mArrayScopeStack := PushBack(mArrayScopeStack, p.entry);
        } else if p.kind == Some(Buf) {
          mBufferScopeStack := PushBack(mBufferScopeStack, p.entry);
        }
      }
      assert params[..i] == params;
    }

    method EnterBlock()
      modifies this
      ensures View() == Opened(old(View())) && mEmitted == old(mEmitted) && mMovedVariables == old(mMovedVariables)
    {
      mArcScopeStack, mStringScopeStack := mArcScopeStack + [[]], mStringScopeStack + [[]];
      mArrayScopeStack, mBufferScopeStack := mArrayScopeStack + [[]], mBufferScopeStack + [[]];
      mLambdaScopeStack, mStructScopeStack := mLambdaScopeStack + [[]], mStructScopeStack + [[]];
      mEnumScopeStack := mEnumScopeStack + [[]];
    }

    /** Releases of one scope. */
    method EmitScope(k: Kind, scope: seq<Entry>)
      modifies `mEmitted
      ensures mEmitted == old(mEmitted) + OfScope(k, scope, mMovedVariables)
    {
      var i := 0;
      while i < |scope|
        invariant i <= |scope| && mEmitted == old(mEmitted) + OfScope(k, scope[..i], mMovedVariables)
      {
        assert scope[..i + 1][..i] == scope[..i];
        if !IsMoved(k, scope[i], mMovedVariables) {
          mEmitted := mEmitted + [Release(k, scope[i].slot)];
        }
        i := i + 1;
      }
      assert scope[..i] == scope;
    }

    /** Releases of a whole stack, from the innermost scope outwards. */
    method EmitStack(k: Kind, stack: Stack)
      modifies `mEmitted
      ensures mEmitted == old(mEmitted) + OfStack(k, stack, mMovedVariables)
    {
      var i := |stack|;
      assert stack[..i] == stack;
      while i > 0
        invariant 0 <= i <= |stack|
        invariant mEmitted + OfStack(k, stack[..i], mMovedVariables) == old(mEmitted) + OfStack(k, stack, mMovedVariables)
      {
        assert stack[..i][..i - 1] == stack[..i - 1];
        ghost var before := mEmitted;
        EmitScope(k, stack[i - 1]);
        assert before + (OfScope(k, stack[i - 1], mMovedVariables) + OfStack(k, stack[..i - 1], mMovedVariables))
            == mEmitted + OfStack(k, stack[..i - 1], mMovedVariables);
        i := i - 1;
      }
    }

    method EmitBlockExit()
      requires AllOpen(View())
      modifies `mEmitted
      ensures mEmitted == old(mEmitted) + OnExit(View(), mMovedVariables)
    {
      hide OfScope;
      EmitScope(Arc, Back(mArcScopeStack));
      EmitScope(Str, Back(mStringScopeStack));
      EmitScope(Arr, Back(mArrayScopeStack));
      EmitScope(Buf, Back(mBufferScopeStack));
      EmitScope(Lambda, Back(mLambdaScopeStack));
      EmitScope(Struct, Back(mStructScopeStack));
      EmitScope(Enum, Back(mEnumScopeStack));
      Appended(old(mEmitted), OfScope(Arc, Back(mArcScopeStack), mMovedVariables),
               OfScope(Str, Back(mStringScopeStack), mMovedVariables),
               OfScope(Arr, Back(mArrayScopeStack), mMovedVariables),
               OfScope(Buf, Back(mBufferScopeStack), mMovedVariables),
               OfScope(Lambda, Back(mLambdaScopeStack), mMovedVariables),
               OfScope(Struct, Back(mStructScopeStack), mMovedVariables),
               OfScope(Enum, Back(mEnumScopeStack), mMovedVariables));
    }

    /** The end of a block: release, unless the last statement already left it, and pop. */
    method ExitBlock(terminated: bool, ghost params: nat)
      requires Aligned(View(), params) && mArcScopeStack != []
      modifies this
      ensures Aligned(View(), params) && View() == old(Popped(View())) && mMovedVariables == old(mMovedVariables)
      ensures mEmitted == if terminated then old(mEmitted) else old(mEmitted) + old(OnExit(View(), mMovedVariables))
    {
      if !terminated { EmitBlockExit(); }
      mArcScopeStack, mStringScopeStack := Init(mArcScopeStack), Init(mStringScopeStack);
      mArrayScopeStack, mBufferScopeStack := Init(mArrayScopeStack), Init(mBufferScopeStack);
      mLambdaScopeStack, mStructScopeStack := Init(mLambdaScopeStack), Init(mStructScopeStack);
      mEnumScopeStack := Init(mEnumScopeStack);
    }

    /** The releases before a return; the stacks stay, for the code that follows. */
    method EmitScopeStackReleases(ghost params: nat)
      requires Aligned(View(), params)
      modifies `mEmitted
      ensures mEmitted == old(mEmitted) + OnReturn(View(), mMovedVariables)
      ensures multiset(mEmitted) == multiset(old(mEmitted)) + multiset(FallingOut(View(), params, mMovedVariables))
    {
      hide OfStack, FallingOut;
      EmitStack(Arc, mArcScopeStack);
      EmitStack(Str, mStringScopeStack);
      EmitStack(Arr, mArrayScopeStack);
      EmitStack(Buf, mBufferScopeStack);
      EmitStack(Lambda, mLambdaScopeStack);
      EmitStack(Struct, mStructScopeStack);
      EmitStack(Enum, mEnumScopeStack);
      Appended(old(mEmitted), OfStack(Arc, mArcScopeStack, mMovedVariables),
               OfStack(Str, mStringScopeStack, mMovedVariables), OfStack(Arr, mArrayScopeStack, mMovedVariables),
               OfStack(Buf, mBufferScopeStack, mMovedVariables), OfStack(Lambda, mLambdaScopeStack, mMovedVariables),
               OfStack(Struct, mStructScopeStack, mMovedVariables), OfStack(Enum, mEnumScopeStack, mMovedVariables));
      ReturnIsFallingOut(View(), params, mMovedVariables);
    }
  }
}
