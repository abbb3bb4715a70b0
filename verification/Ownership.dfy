/**
 The reference-count invariant: which references the running program holds, and how each
 heap operation changes the account.
 */
module Ownership {
  import opened Source
  import opened Machine

  /**
   Every string is counted at least once per reference in `refs`; in an exact account the
   two agree for every string ever created, so nothing is leaked.
   */
  ghost predicate Owns(h: Heap, refs: multiset<Obj>, exact: bool) {
    && (forall o :: o in h.cells ==> 1 <= o < h.next)
    && 1 <= h.next
    && (forall o :: o in refs && o != 0 ==> o in h.cells)
    && (forall o :: o in h.cells ==> h.cells[o].count >= refs[o])
    && (exact ==> forall o :: o in h.cells ==> h.cells[o].count == refs[o])
  }

  /** Object `o` is the machine's form of the source value `v`. */
  ghost predicate Denotes(h: Heap, o: Obj, v: SVal) {
    if o == 0 then v == Null else o in h.cells && v == Text(h.cells[o].text)
  }

  /** Strings are never reused or changed, whatever happens to their counts. */
  ghost predicate Keeps(h: Heap, h': Heap) {
    forall o :: o in h.cells ==> o in h'.cells && h'.cells[o].text == h.cells[o].text
  }

  lemma OwnedIsAlive(h: Heap, refs: multiset<Obj>, exact: bool, o: Obj)
    requires Owns(h, refs, exact) && (o in refs || o == 0)
    ensures Alive(h, o)
  {
  }

  lemma RetainAdds(h: Heap, refs: multiset<Obj>, exact: bool, o: Obj)
    requires Owns(h, refs, exact) && Alive(h, o)
    ensures Owns(Recount(h, o, 1), refs + multiset{o}, exact) && Keeps(h, Recount(h, o, 1))
  {
  }

  lemma ReleaseDrops(h: Heap, refs: multiset<Obj>, exact: bool, o: Obj)
    requires Owns(h, refs + multiset{o}, exact)
    ensures Alive(h, o) && Owns(Recount(h, o, -1), refs, exact) && Keeps(h, Recount(h, o, -1))
  {
    var refs' := refs + multiset{o};
    assert refs'[o] == refs[o] + 1;
    forall q | q in refs ensures q in refs' {}
  }

  lemma AllocAdds(h: Heap, refs: multiset<Obj>, exact: bool, t: string)
    requires Owns(h, refs, exact)
    ensures Owns(Alloc(h, t), refs + multiset{h.next}, exact) && Keeps(h, Alloc(h, t))
    ensures h.next != 0 && Denotes(Alloc(h, t), h.next, Text(t))
  {
    assert h.next !in h.cells;
    assert h.next !in refs;
  }

  /** Forgetting references is harmless unless the account has to be exact. */
  lemma OwnsFewer(h: Heap, refs: multiset<Obj>, fewer: multiset<Obj>)
    requires Owns(h, refs, false) && fewer <= refs
    ensures Owns(h, fewer, false)
  {
    forall o ensures fewer[o] <= refs[o] {}
  }

  // ---- References held by variables and by temporaries ----

  function VarRefs(xs: seq<Var>, moved: set<Var>, svars: map<Var, Obj>): multiset<Obj> {
    if xs == [] then multiset{}
    else
      VarRefs(xs[..|xs| - 1], moved, svars)
      + (if xs[|xs| - 1] in moved || xs[|xs| - 1] !in svars then multiset{}
         else multiset{svars[xs[|xs| - 1]]})
  }

  function TempRefs(ts: seq<Reg>, sregs: map<Reg, Obj>): multiset<Obj> {
    if ts == [] then multiset{}
    else
      TempRefs(ts[..|ts| - 1], sregs)
      + (if ts[|ts| - 1] in sregs then multiset{sregs[ts[|ts| - 1]]} else multiset{})
  }

  /** The same variables of `xs` are moved. */
  predicate MovedAlike(xs: seq<Var>, m: set<Var>, m': set<Var>) {
    forall x :: x in xs ==> (x in m <==> x in m')
  }

  ghost predicate Distinct<T>(xs: seq<T>) {
    forall i, j :: 0 <= i < j < |xs| ==> xs[i] != xs[j]
  }

  lemma {:induction false} VarRefsAppend(xs: seq<Var>, ys: seq<Var>, moved: set<Var>, svars: map<Var, Obj>)
    ensures VarRefs(xs + ys, moved, svars) == VarRefs(xs, moved, svars) + VarRefs(ys, moved, svars)
    decreases |ys|
  {
    if ys == [] {
      assert xs + ys == xs;
    } else {
      assert (xs + ys)[..|xs + ys| - 1] == xs + ys[..|ys| - 1];
      VarRefsAppend(xs, ys[..|ys| - 1], moved, svars);
    }
  }

  lemma {:induction false} TempRefsAppend(xs: seq<Reg>, ys: seq<Reg>, sregs: map<Reg, Obj>)
    ensures TempRefs(xs + ys, sregs) == TempRefs(xs, sregs) + TempRefs(ys, sregs)
    decreases |ys|
  {
    if ys == [] {
      assert xs + ys == xs;
    } else {
      assert (xs + ys)[..|xs + ys| - 1] == xs + ys[..|ys| - 1];
      TempRefsAppend(xs, ys[..|ys| - 1], sregs);
    }
  }

  /** Only the slots of listed, unmoved variables matter. */
  lemma {:induction false} VarRefsFrame(xs: seq<Var>, moved: set<Var>, a: map<Var, Obj>, b: map<Var, Obj>)
    requires forall x :: x in xs && x !in moved ==> (x in a <==> x in b) && (x in a ==> a[x] == b[x])
    ensures VarRefs(xs, moved, a) == VarRefs(xs, moved, b)
    decreases |xs|
  {
    if xs != [] { VarRefsFrame(xs[..|xs| - 1], moved, a, b); }
  }

  lemma {:induction false} TempRefsFrame(ts: seq<Reg>, a: map<Reg, Obj>, b: map<Reg, Obj>)
    requires forall t :: t in ts ==> (t in a <==> t in b) && (t in a ==> a[t] == b[t])
    ensures TempRefs(ts, a) == TempRefs(ts, b)
    decreases |ts|
  {
    if ts != [] { TempRefsFrame(ts[..|ts| - 1], a, b); }
  }

  lemma {:induction false} VarIsHeld(xs: seq<Var>, moved: set<Var>, svars: map<Var, Obj>, x: Var)
    requires x in xs && x !in moved && x in svars
    ensures svars[x] in VarRefs(xs, moved, svars)
    decreases |xs|
  {
    if xs[|xs| - 1] != x { VarIsHeld(xs[..|xs| - 1], moved, svars, x); }
  }

  lemma {:induction false} TempIsHeld(ts: seq<Reg>, sregs: map<Reg, Obj>, t: Reg)
    requires t in ts && t in sregs
    ensures sregs[t] in TempRefs(ts, sregs)
    decreases |ts|
  {
    if ts[|ts| - 1] != t { TempIsHeld(ts[..|ts| - 1], sregs, t); }
  }

  /** Moving more variables only removes references. */
  lemma {:induction false} VarRefsMoveMore(xs: seq<Var>, m: set<Var>, m': set<Var>, svars: map<Var, Obj>)
    requires m <= m'
    ensures VarRefs(xs, m', svars) <= VarRefs(xs, m, svars)
    decreases |xs|
  {
    if xs != [] { VarRefsMoveMore(xs[..|xs| - 1], m, m', svars); }
  }

  /** Only what is moved of `xs` matters. */
  lemma {:induction false} VarRefsAgree(xs: seq<Var>, m: set<Var>, m': set<Var>, svars: map<Var, Obj>)
    requires MovedAlike(xs, m, m')
    ensures VarRefs(xs, m, svars) == VarRefs(xs, m', svars)
    decreases |xs|
  {
    if xs != [] { VarRefsAgree(xs[..|xs| - 1], m, m', svars); }
  }

  lemma {:induction false} VarRefsAllMoved(xs: seq<Var>, m: set<Var>, svars: map<Var, Obj>)
    requires forall x :: x in xs ==> x in m
    ensures VarRefs(xs, m, svars) == multiset{}
    decreases |xs|
  {
    if xs != [] { VarRefsAllMoved(xs[..|xs| - 1], m, svars); }
  }

  /** Moving `x` out gives up exactly the reference in its slot. */
  lemma {:induction false} VarRefsMove(xs: seq<Var>, moved: set<Var>, svars: map<Var, Obj>, x: Var)
    requires x in xs && x !in moved && x in svars && Distinct(xs)
    ensures VarRefs(xs, moved, svars) == VarRefs(xs, moved + {x}, svars) + multiset{svars[x]}
    decreases |xs|
  {
    var init := xs[..|xs| - 1];
    if xs[|xs| - 1] == x {
      assert x !in init;
      VarRefsMoveOther(init, moved, svars, x);
    } else {
      VarRefsMove(init, moved, svars, x);
    }
  }

  lemma {:induction false} VarRefsMoveOther(xs: seq<Var>, moved: set<Var>, svars: map<Var, Obj>, x: Var)
    requires x !in xs
    ensures VarRefs(xs, moved, svars) == VarRefs(xs, moved + {x}, svars)
    decreases |xs|
  {
    if xs != [] { VarRefsMoveOther(xs[..|xs| - 1], moved, svars, x); }
  }

  /** Overwriting the slot of `x` exchanges one reference for another. */
  lemma {:induction false} VarRefsStore(xs: seq<Var>, moved: set<Var>, svars: map<Var, Obj>, x: Var, o: Obj)
    requires x in xs && x !in moved && x in svars && Distinct(xs)
    ensures VarRefs(xs, moved, svars[x := o]) + multiset{svars[x]} == VarRefs(xs, moved, svars) + multiset{o}
    decreases |xs|
  {
    var init := xs[..|xs| - 1];
    if xs[|xs| - 1] == x {
      assert x !in init;
      VarRefsFrame(init, moved, svars, svars[x := o]);
    } else {
      VarRefsStore(init, moved, svars, x, o);
    }
  }
}
