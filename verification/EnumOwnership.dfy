/**
 Reference counts of enum payloads. Enum children are boxed: a counted cell whose destructor
 releases the payloads of the value inside. The generated retain and release walks are mirror
 images, and releasing keeps every count equal to the number of references.
 */
module EnumOwnership {
  import opened EnumLayout

  // ---- The generated walks ----

  datatype RcKind = StringRc | ArrayRc | BufferRc | BoxOrStructRc

  /** One payload to visit: its byte offset and the kind of its count. */
  datatype Visit = Visit(offset: nat, kind: RcKind)

  predicate IsRef(env: Env, t: string) {
    t == "string" || t == "Array" || t == "Buffer" || t in env.structs || t in env.enums
  }

  function KindOf(t: string): RcKind {
    if t == "string" then StringRc else if t == "Array" then ArrayRc else if t == "Buffer" then BufferRc
    else BoxOrStructRc
  }

  /** The first n payloads of a variant, those that are counted, at the offsets of the layout. */
  function Visits(env: Env, def: EnumDef, inst: Instance, ts: seq<string>, n: nat): seq<Visit>
    requires n <= |ts|
  {
    if n == 0 then []
    else
      var before := Visits(env, def, inst, ts, n - 1);
      var t := Resolve(def, inst, ts[n - 1]);
      if IsRef(env, t) then before + [Visit(Offset(ReleasedSlots(env, def, inst, ts), n - 1), KindOf(t))] else before
  }

  /** The visits for each tag. */
  function Walk(env: Env, def: EnumDef, inst: Instance): (r: seq<seq<Visit>>)
    ensures |r| == |def.variants|
  {
    seq(|def.variants|, v requires 0 <= v < |def.variants| =>
      Visits(env, def, inst, def.variants[v].types, |def.variants[v].types|))
  }

  method HasCountedPayload(env: Env, def: EnumDef, inst: Instance, types: seq<string>) returns (has: bool)
    ensures
      has <==> exists t :: t in types && var u := Resolve(def, inst, t);
        u == "string" || u == "Array" || u == "Buffer" || u in env.structs || u in env.enums
    ensures has <==> Visits(env, def, inst, types, |types|) != []
  {
    var i := 0;
    while i < |types|
      invariant i <= |types|
      invariant forall j :: 0 <= j < i ==> !IsRef(env, Resolve(def, inst, types[j]))
    {
      if IsRef(env, Resolve(def, inst, types[i])) {
        SomethingToVisit(env, def, inst, types, |types|, i);
        return true;
      }
      i := i + 1;
    }
    NothingToVisit(env, def, inst, types, |types|);
    has := false;
  }

  lemma {:induction false} SomethingToVisit(env: Env, def: EnumDef, inst: Instance, ts: seq<string>, n: nat, i: nat)
    requires i < n <= |ts| && IsRef(env, Resolve(def, inst, ts[i]))
    ensures Visits(env, def, inst, ts, n) != []
    decreases n
  {
    if i < n - 1 { SomethingToVisit(env, def, inst, ts, n - 1, i); }
  }

  lemma {:induction false} NothingToVisit(env: Env, def: EnumDef, inst: Instance, ts: seq<string>, n: nat)
    requires n <= |ts| && forall t :: t in ts ==> !IsRef(env, Resolve(def, inst, t))
    ensures Visits(env, def, inst, ts, n) == []
    decreases n
  {
    if n > 0 { NothingToVisit(env, def, inst, ts, n - 1); }
  }

  /** One variant of the retain or release walk, with its running offset. */
  method EmitVariant(env: Env, def: EnumDef, inst: Instance, types: seq<string>) returns (visits: seq<Visit>)
    ensures visits == Visits(env, def, inst, types, |types|)
  {
    visits := [];
    ghost var slots := ReleasedSlots(env, def, inst, types);
    var off, i := 0, 0;
    while i < |types|
      invariant i <= |types| && off == Offset(slots, i) && visits == Visits(env, def, inst, types, i)
    {
      OffsetNext(slots, i);
      var resolved := Resolve(def, inst, types[i]);
      var slot: nat;
      if types[i] in def.generics || resolved in env.enums {
        slot := PTR_SIZE;
      } else {
        slot := AllocSize(env, resolved);
      }
      if resolved == "string" {
        visits := visits + [Visit(off, StringRc)];
      } else if resolved == "Array" {
        visits := visits + [Visit(off, ArrayRc)];
      } else if resolved == "Buffer" {
        visits := visits + [Visit(off, BufferRc)];
      } else if resolved in env.structs || resolved in env.enums {
        visits := visits + [Visit(off, BoxOrStructRc)];
      }
      off := off + slot;
      i := i + 1;
    }
  }

  /** The release walk: a case for every variant with a counted payload, nothing for the others. */
  method EmitEnumPayloadRelease(env: Env, def: EnumDef, inst: Instance) returns (cases: seq<seq<Visit>>)
    ensures cases == Walk(env, def, inst)
  {
    cases := [];
    while |cases| < |def.variants|
      invariant |cases| <= |def.variants| && cases == Walk(env, def, inst)[..|cases|]
    {
      var types := def.variants[|cases|].types;
      var has := HasCountedPayload(env, def, inst, types);
      if has {
        var visits := EmitVariant(env, def, inst, types);
        cases := cases + [visits];
      } else {
        NothingToVisit(env, def, inst, types, |types|);
        cases := cases + [[]];
      }
    }
  }

  /** One variant of the retain walk: the same offsets, and the retain function of each kind. */
  method EmitRetainVariant(env: Env, def: EnumDef, types: seq<string>) returns (visits: seq<Visit>)
    ensures visits == Visits(env, def, map[], types, |types|)
  {
    visits := [];
    ghost var slots := ReleasedSlots(env, def, map[], types);
    var off := 0;
    for i := 0 to |types|
      invariant off == Offset(slots, i) && visits == Visits(env, def, map[], types, i)
    {
      OffsetNext(slots, i);
      var atn := types[i];
      var slot := if atn in def.generics || atn in env.enums then PTR_SIZE else AllocSize(env, atn);
      var retainFn := None;
      if atn == "string" {
        retainFn := Some(StringRc);
      } else if atn == "Array" {
        retainFn := Some(ArrayRc);
      } else if atn == "Buffer" {
        retainFn := Some(BufferRc);
      } else if atn in env.structs || atn in env.enums {
        retainFn := Some(BoxOrStructRc);
      }
      if retainFn.Some? { visits := visits + [Visit(off, retainFn.value)]; }
      off := off + slot;
    }
  }

  /** The payload retain, which is generated without a concrete instance. */
  method GenEnumPayloadRetain(env: Env, def: EnumDef) returns (cases: seq<seq<Visit>>)
    ensures cases == Walk(env, def, map[])
  {
    cases := [];
    while |cases| < |def.variants|
      invariant |cases| <= |def.variants| && cases == Walk(env, def, map[])[..|cases|]
    {
      var types := def.variants[|cases|].types;
      var has := HasCountedPayload(env, def, map[], types);
      var visits := [];
      if has {
        visits := EmitRetainVariant(env, def, types);
      } else {
        NothingToVisit(env, def, map[], types, |types|);
      }
      cases := cases + [visits];
    }
  }

  // ---- Values and the heap of counted cells ----

  type Ptr = nat  // 0 is the null pointer

  /** The payload area: the word stored at each byte offset. */
  datatype EnumVal = EnumVal(tag: nat, words: map<nat, Ptr>)

  datatype Cell = Freed | Leaf(count: nat) | Box(count: nat, def: EnumDef, val: EnumVal)

  type Heap = seq<Cell>

  function Load(val: EnumVal, offset: nat): Ptr {
    if offset in val.words then val.words[offset] else 0
  }

  function LoadAll(val: EnumVal, visits: seq<Visit>): (r: seq<Ptr>)
    ensures |r| == |visits|
  {
    seq(|visits|, i requires 0 <= i < |visits| => Load(val, visits[i].offset))
  }

  /** The pointers that the walks of an enum find in a value; an unknown tag has no case. */
  function Payloads(env: Env, def: EnumDef, val: EnumVal): seq<Ptr> {
    if val.tag < |def.variants| then LoadAll(val, Walk(env, def, map[])[val.tag]) else []
  }

  /** What a cell refers to. */
  function CellRefs(env: Env, c: Cell): seq<Ptr> {
    if c.Box? then Payloads(env, c.def, c.val) else []
  }

  function Live(h: Heap): nat {
    if h == [] then 0 else Live(h[..|h| - 1]) + (if h[|h| - 1].Freed? then 0 else 1)
  }

  lemma {:induction false} LiveUpdate(h: Heap, p: Ptr, c: Cell)
    requires p < |h|
    ensures Live(h[p := c]) + (if h[p].Freed? then 0 else 1) == Live(h) + (if c.Freed? then 0 else 1)
    decreases |h|
  {
    var n := |h| - 1;
    if p < n {
      assert h[p := c][..n] == h[..n][p := c];
      LiveUpdate(h[..n], p, c);
    } else {
      assert h[p := c][..n] == h[..n];
    }
  }

  function SetCount(c: Cell, n: nat): Cell
    requires !c.Freed?
  {
    if c.Leaf? then Leaf(n) else Box(n, c.def, c.val)
  }

  /** `rc_retain`; `None` when the cell is gone. */
  function Retain(h: Heap, p: Ptr): Option<Heap> {
    if p == 0 then Some(h)
    else if p >= |h| || h[p].Freed? then None
    else Some(h[p := SetCount(h[p], h[p].count + 1)])
  }

  function RetainAll(h: Heap, ps: seq<Ptr>): Option<Heap>
    decreases |ps|
  {
    if ps == [] then Some(h)
    else
      match Retain(h, ps[0])
      case None => None
      case Some(h1) => RetainAll(h1, ps[1..])
  }

  datatype Option<T> = None | Some(value: T)

  /** `rc_release`: at zero the cell is freed and a box's destructor releases its payloads. */
  function Release(env: Env, h: Heap, p: Ptr): (r: Option<Heap>)
    ensures r.Some? ==> |r.value| == |h| && Live(r.value) <= Live(h)
    decreases Live(h), 0
  {
    if p == 0 then Some(h)
    else if p >= |h| || h[p].Freed? then None
    else if h[p].count > 1 then
      LiveUpdate(h, p, SetCount(h[p], h[p].count - 1));
      Some(h[p := SetCount(h[p], h[p].count - 1)])
    else
      LiveUpdate(h, p, Freed);
      ReleaseAll(env, h[p := Freed], CellRefs(env, h[p]))
  }

  function ReleaseAll(env: Env, h: Heap, ps: seq<Ptr>): (r: Option<Heap>)
    ensures r.Some? ==> |r.value| == |h| && Live(r.value) <= Live(h)
    decreases Live(h), |ps|
  {
    if ps == [] then Some(h)
    else
      match Release(env, h, ps[0])
      case None => None
      case Some(h1) => ReleaseAll(env, h1, ps[1..])
  }

  // ---- Mirror images ----

  predicate AllLive(h: Heap, ps: seq<Ptr>) {
    forall i :: 0 <= i < |ps| && ps[i] != 0 ==> ps[i] < |h| && !h[ps[i]].Freed? && h[ps[i]].count > 0
  }

  /** `k` with its counts raised by `more`. */
  predicate Raised(h: Heap, k: Heap, more: multiset<Ptr>) {
    && |k| == |h|
    && forall p :: 0 <= p < |h| ==>
         if h[p].Freed? then k[p] == h[p] else k[p] == SetCount(h[p], h[p].count + more[p])
  }

  function NonNull(ps: seq<Ptr>): multiset<Ptr> {
    if ps == [] then multiset{} else (if ps[0] == 0 then multiset{} else multiset{ps[0]}) + NonNull(ps[1..])
  }

  lemma {:induction false} RetainRaises(h: Heap, k: Heap, ps: seq<Ptr>, more: multiset<Ptr>)
    requires AllLive(h, ps) && Raised(h, k, more)
    ensures RetainAll(k, ps).Some? && Raised(h, RetainAll(k, ps).value, more + NonNull(ps))
    decreases |ps|
  {
    if ps == [] {
      assert more + multiset{} == more;
    } else {
      var p := ps[0];
      var one := if p == 0 then multiset{} else multiset{p};
      assert AllLive(h, ps[1..]);
      RetainRaises(h, Retain(k, p).value, ps[1..], more + one);
      assert more + one + NonNull(ps[1..]) == more + NonNull(ps);
    }
  }

  lemma {:induction false} ReleaseLowers(env: Env, h: Heap, k: Heap, ps: seq<Ptr>)
    requires AllLive(h, ps) && Raised(h, k, NonNull(ps))
    ensures ReleaseAll(env, k, ps) == Some(h)
    decreases |ps|
  {
    hide CellRefs;
    if ps == [] {
      assert k == h;
    } else {
      assert AllLive(h, ps[1..]);
      ReleaseOne(env, h, k, ps[0], NonNull(ps[1..]));
      hide Release;
      ReleaseLowers(env, h, Release(env, k, ps[0]).value, ps[1..]);
    }
  }

  lemma ReleaseOne(env: Env, h: Heap, k: Heap, p: Ptr, more: multiset<Ptr>)
    requires AllLive(h, [p]) && Raised(h, k, (if p == 0 then multiset{} else multiset{p}) + more)
    ensures Release(env, k, p).Some? && Raised(h, Release(env, k, p).value, more)
  {
    hide CellRefs;
    if p == 0 {
      assert multiset{} + more == more;
    } else {
      assert [p][0] == p;
      assert k[p] == SetCount(h[p], h[p].count + 1 + more[p]);
    }
  }

  /** The payload retain followed by the payload release restores every count. */
  lemma RetainThenRelease(env: Env, h: Heap, def: EnumDef, val: EnumVal)
    requires AllLive(h, Payloads(env, def, val))
    ensures RetainAll(h, Payloads(env, def, val)).Some?
    ensures ReleaseAll(env, RetainAll(h, Payloads(env, def, val)).value, Payloads(env, def, val)) == Some(h)
  {
    var ps := Payloads(env, def, val);
    RetainRaises(h, h, ps, multiset{});
    assert multiset{} + NonNull(ps) == NonNull(ps);
    ReleaseLowers(env, h, RetainAll(h, ps).value, ps);
  }

  // ---- Conservation ----

  /** All references that boxes hold. */
  function HeapRefs(env: Env, h: Heap): multiset<Ptr> {
    if h == [] then multiset{} else HeapRefs(env, h[..|h| - 1]) + NonNull(CellRefs(env, h[|h| - 1]))
  }

  /** Every count is the number of references, `ext` from outside and the rest from boxes. */
  ghost predicate Balanced(env: Env, h: Heap, ext: multiset<Ptr>) {
    CountsAre(h, ext + HeapRefs(env, h))
  }

  ghost predicate CountsAre(h: Heap, refs: multiset<Ptr>) {
    && (forall p :: p in refs ==> 0 < p < |h| && !h[p].Freed?)
    && (forall p :: 0 <= p < |h| && !h[p].Freed? ==> h[p].count == refs[p] && h[p].count > 0)
  }

  lemma CountsFewer(h: Heap, p: Ptr, refs: multiset<Ptr>)
    requires CountsAre(h, refs + multiset{p}) && h[p].count > 1
    ensures CountsAre(h[p := SetCount(h[p], h[p].count - 1)], refs)
  {
    forall q | q in refs ensures q in refs + multiset{p} {}
  }

  lemma CountsLast(h: Heap, p: Ptr, refs: multiset<Ptr>)
    requires CountsAre(h, refs + multiset{p}) && h[p].count == 1
    ensures CountsAre(h[p := Freed], refs)
  {
    assert (refs + multiset{p})[p] == refs[p] + 1;
    forall q | q in refs ensures q in refs + multiset{p} && q != p {}
  }

  lemma CountsNew(h: Heap, c: Cell, refs: multiset<Ptr>)
    requires CountsAre(h, refs) && !c.Freed? && c.count == 1 && h != []
    ensures CountsAre(h + [c], refs + multiset{|h|})
  {
    assert |h| !in refs;
  }

  lemma CountsRaised(h: Heap, k: Heap, refs: multiset<Ptr>, more: multiset<Ptr>)
    requires CountsAre(h, refs) && Raised(h, k, more) && forall p :: p in more ==> 0 < p < |h| && !h[p].Freed?
    ensures CountsAre(k, refs + more)
  {
  }

  function One(p: Ptr): multiset<Ptr> {
    if p == 0 then multiset{} else multiset{p}
  }

  lemma Shuffle(a: multiset<Ptr>, x: multiset<Ptr>, r: multiset<Ptr>, b: multiset<Ptr>, c: multiset<Ptr>)
    requires a + r == b + c
    ensures a + x + r == b + x + c
  {
    assert a + x + r == a + r + x;
    assert b + x + c == b + c + x;
  }

  lemma {:induction false} RefsUpdate(env: Env, h: Heap, p: Ptr, c: Cell)
    requires p < |h|
    ensures HeapRefs(env, h[p := c]) + NonNull(CellRefs(env, h[p])) == HeapRefs(env, h) + NonNull(CellRefs(env, c))
    decreases |h|
  {
    hide CellRefs, NonNull;
    var n := |h| - 1;
    if p < n {
      assert h[p := c][..n] == h[..n][p := c];
      RefsUpdate(env, h[..n], p, c);
      Shuffle(HeapRefs(env, h[..n][p := c]), NonNull(CellRefs(env, h[n])), NonNull(CellRefs(env, h[p])),
              HeapRefs(env, h[..n]), NonNull(CellRefs(env, c)));
    } else {
      assert h[p := c][..n] == h[..n];
    }
  }

  lemma CountOnly(env: Env, h: Heap, p: Ptr, n: nat)
    requires p < |h| && !h[p].Freed?
    ensures HeapRefs(env, h[p := SetCount(h[p], n)]) == HeapRefs(env, h)
  {
    var c := SetCount(h[p], n);
    assert CellRefs(env, c) == CellRefs(env, h[p]);
    RefsUpdate(env, h, p, c);
    var a, b, r := HeapRefs(env, h[p := c]), HeapRefs(env, h), NonNull(CellRefs(env, h[p]));
    assert a == a + r - r && b == b + r - r;
  }

  /** One reference less: no cell is used after it was freed, and every count stays exact. */
  lemma {:induction false} ReleaseBalances(env: Env, h: Heap, p: Ptr, ext: multiset<Ptr>)
    requires Balanced(env, h, ext + One(p))
    ensures Release(env, h, p).Some? && Balanced(env, Release(env, h, p).value, ext)
    decreases Live(h), 0
  {
    hide CellRefs, NonNull, HeapRefs, Live;
    if p == 0 {
      assert ext + One(p) == ext;
    } else {
      assert p in ext + One(p) + HeapRefs(env, h);
      if h[p].count > 1 {
        CountOnly(env, h, p, h[p].count - 1);
        OneFewer(env, h, p, ext);
      } else {
        var rs := CellRefs(env, h[p]);
        LiveUpdate(h, p, Freed);
        LastOne(env, h, p, ext);
        ReleaseAllBalances(env, h[p := Freed], rs, ext);
      }
    }
  }

  lemma OneFewer(env: Env, h: Heap, p: Ptr, ext: multiset<Ptr>)
    requires p != 0 && Balanced(env, h, ext + One(p)) && p < |h| && !h[p].Freed? && h[p].count > 1
    ensures Balanced(env, h[p := SetCount(h[p], h[p].count - 1)], ext)
  {
    hide CellRefs, NonNull, HeapRefs, CountsAre;
    CountOnly(env, h, p, h[p].count - 1);
    assert ext + One(p) + HeapRefs(env, h) == ext + HeapRefs(env, h) + multiset{p};
    CountsFewer(h, p, ext + HeapRefs(env, h));
  }

  /** The last reference: the cell goes, and what it referred to is now referred to from outside. */
  lemma LastOne(env: Env, h: Heap, p: Ptr, ext: multiset<Ptr>)
    requires p != 0 && Balanced(env, h, ext + One(p)) && p < |h| && !h[p].Freed? && h[p].count == 1
    ensures Balanced(env, h[p := Freed], ext + NonNull(CellRefs(env, h[p])))
  {
    RefsUpdate(env, h, p, Freed);
    FreedHoldsNothing(env, Freed);
    hide CellRefs, NonNull, HeapRefs, CountsAre;
    var rs := NonNull(CellRefs(env, h[p]));
    assert ext + One(p) + HeapRefs(env, h) == ext + HeapRefs(env, h) + multiset{p};
    assert HeapRefs(env, h[p := Freed]) + rs == HeapRefs(env, h) + multiset{} == HeapRefs(env, h);
    assert ext + rs + HeapRefs(env, h[p := Freed]) == ext + (HeapRefs(env, h[p := Freed]) + rs);
    CountsLast(h, p, ext + HeapRefs(env, h));
  }

  lemma {:induction false} ReleaseAllBalances(env: Env, h: Heap, ps: seq<Ptr>, ext: multiset<Ptr>)
    requires Balanced(env, h, ext + NonNull(ps))
    ensures ReleaseAll(env, h, ps).Some? && Balanced(env, ReleaseAll(env, h, ps).value, ext)
    decreases Live(h), |ps|
  {
    hide CellRefs, HeapRefs, Live, Balanced, Release;
    if ps == [] {
      assert ext + multiset{} == ext;
    } else {
      assert ext + NonNull(ps) == ext + NonNull(ps[1..]) + One(ps[0]);
      ReleaseBalances(env, h, ps[0], ext + NonNull(ps[1..]));
      ReleaseAllBalances(env, Release(env, h, ps[0]).value, ps[1..], ext);
    }
  }

  // ---- Whole trees ----

  /** Boxes refer only to cells created before them. */
  ghost predicate ChildrenFirst(env: Env, h: Heap) {
    forall p, q :: 0 <= p < |h| && q in NonNull(CellRefs(env, h[p])) ==> q < p
  }

  /** Each cell of `k` is one of `h` with another count, or was freed. */
  ghost predicate Shrinks(h: Heap, k: Heap) {
    |k| == |h| && forall p :: 0 <= p < |h| ==>
      k[p].Freed? || (!h[p].Freed? && k[p] == SetCount(h[p], k[p].count))
  }

  lemma ShrinksTrans(a: Heap, b: Heap, c: Heap)
    requires Shrinks(a, b) && Shrinks(b, c)
    ensures Shrinks(a, c)
  {
  }

  lemma {:induction false} ReleaseShrinks(env: Env, h: Heap, p: Ptr)
    requires Release(env, h, p).Some?
    ensures Shrinks(h, Release(env, h, p).value)
    decreases Live(h), 0
  {
    hide CellRefs, Live;
    if p != 0 && h[p].count <= 1 {
      LiveUpdate(h, p, Freed);
      ReleaseAllShrinks(env, h[p := Freed], CellRefs(env, h[p]));
      ShrinksTrans(h, h[p := Freed], Release(env, h, p).value);
    }
  }

  lemma {:induction false} ReleaseAllShrinks(env: Env, h: Heap, ps: seq<Ptr>)
    requires ReleaseAll(env, h, ps).Some?
    ensures Shrinks(h, ReleaseAll(env, h, ps).value)
    decreases Live(h), |ps|
  {
    hide Release, Live;
    if ps != [] {
      ReleaseShrinks(env, h, ps[0]);
      var h1 := Release(env, h, ps[0]).value;
      ReleaseAllShrinks(env, h1, ps[1..]);
      ShrinksTrans(h, h1, ReleaseAll(env, h, ps).value);
    }
  }

  lemma {:induction false} HolderOf(env: Env, h: Heap, p: Ptr) returns (q: Ptr)
    requires p in HeapRefs(env, h)
    ensures q < |h| && p in NonNull(CellRefs(env, h[q]))
    decreases |h|
  {
    hide CellRefs, NonNull;
    q := |h| - 1;
    if p !in NonNull(CellRefs(env, h[q])) { q := HolderOf(env, h[..q], p); }
  }

  /** With no reference from outside, nothing is left. */
  lemma {:induction false} NothingLeft(env: Env, h: Heap, n: nat)
    requires Balanced(env, h, multiset{}) && ChildrenFirst(env, h) && n <= |h|
    ensures forall p :: n <= p < |h| ==> h[p].Freed?
    decreases |h| - n
  {
    hide CellRefs, NonNull, HeapRefs;
    if n < |h| {
      NothingLeft(env, h, n + 1);
      if !h[n].Freed? {
        assert multiset{} + HeapRefs(env, h) == HeapRefs(env, h);
        assert n in HeapRefs(env, h);
        var q := HolderOf(env, h, n);
        FreedHoldsNothing(env, h[q]);
      }
    }
  }

  lemma FreedHoldsNothing(env: Env, c: Cell)
    ensures c.Freed? ==> NonNull(CellRefs(env, c)) == multiset{}
  {
  }

  /** Releasing the last owner of a tree of boxes frees every cell of it, each exactly once. */
  lemma TreeIsFreed(env: Env, h: Heap, p: Ptr)
    requires Balanced(env, h, One(p)) && ChildrenFirst(env, h)
    ensures Release(env, h, p).Some? && forall q :: 0 <= q < |h| ==> Release(env, h, p).value[q].Freed?
  {
    assert multiset{} + One(p) == One(p);
    ReleaseBalances(env, h, p, multiset{});
    var k := Release(env, h, p).value;
    ReleaseShrinks(env, h, p);
    forall i, q | 0 <= i < |k| && q in NonNull(CellRefs(env, k[i])) ensures q < i {
      FreedHoldsNothing(env, k[i]);
      assert CellRefs(env, k[i]) == CellRefs(env, h[i]);
    }
    NothingLeft(env, k, 0);
  }

  // ---- Construction ----

  /** The first n arguments stored at the offsets of the construction walk. */
  function StoredWords(env: Env, args: seq<string>, ptrs: seq<Ptr>, n: nat): map<nat, Ptr>
    requires n <= |args| == |ptrs|
  {
    if n == 0 then map[]
    else StoredWords(env, args, ptrs, n - 1)[Offset(StoredSlots(env, args), n - 1) := ptrs[n - 1]]
  }

  function Construct(env: Env, tag: nat, args: seq<string>, ptrs: seq<Ptr>): EnumVal
    requires |args| == |ptrs|
  {
    EnumVal(tag, StoredWords(env, args, ptrs, |args|))
  }

  /** The strings, arrays, buffers, structs and enums among the first n arguments. */
  function Counted(env: Env, args: seq<string>, ptrs: seq<Ptr>, n: nat): seq<Ptr>
    requires n <= |args| == |ptrs|
  {
    if n == 0 then []
    else
      var t := args[n - 1];
      Counted(env, args, ptrs, n - 1)
      + (if t == "string" || t == "Array" || t == "Buffer" || t in env.structs || t in env.enums then [ptrs[n - 1]] else [])
  }

  lemma {:induction false} StoredAt(env: Env, args: seq<string>, ptrs: seq<Ptr>, n: nat, i: nat)
    requires i < n <= |args| == |ptrs|
    ensures
      var o := Offset(StoredSlots(env, args), i);
      o in StoredWords(env, args, ptrs, n) && StoredWords(env, args, ptrs, n)[o] == ptrs[i]
    decreases n
  {
    hide StoredSlot;
    if i < n - 1 {
      StoredAt(env, args, ptrs, n - 1, i);
      SlotsDisjoint(StoredSlots(env, args), i, n - 1);
    }
  }

  lemma {:induction false} VisitsFind(env: Env, def: EnumDef, ts: seq<string>, val: EnumVal, ptrs: seq<Ptr>, n: nat)
    requires n <= |ts| == |ptrs|
    requires forall i :: 0 <= i < |ts| ==> Load(val, Offset(ReleasedSlots(env, def, map[], ts), i)) == ptrs[i]
    ensures LoadAll(val, Visits(env, def, map[], ts, n)) == Counted(env, ts, ptrs, n)
    decreases n
  {
    hide ReleasedSlot, Offset, Load, KindOf;
    if n > 0 {
      VisitsFind(env, def, ts, val, ptrs, n - 1);
      assert Resolve(def, map[], ts[n - 1]) == ts[n - 1];
    }
  }

  /** Retain and release find exactly the counted arguments that construction stored. */
  lemma StoredIsFound(env: Env, def: EnumDef, tag: nat, ptrs: seq<Ptr>)
    requires tag < |def.variants| && |ptrs| == |def.variants[tag].types|
    requires
      var ts := def.variants[tag].types;
      forall i :: 0 <= i < |ts| - 1 ==> Fits(env, def, map[], ts[i])
    ensures
      var ts := def.variants[tag].types;
      Payloads(env, def, Construct(env, tag, ts, ptrs)) == Counted(env, ts, ptrs, |ts|)
  {
    var ts := def.variants[tag].types;
    var val := Construct(env, tag, ts, ptrs);
    assert Actual(def, map[], ts) == ts;
    LayoutAgrees(env, def, map[], ts);
    hide Fits, StoredSlot, ReleasedSlot, Resolve;
    forall i | 0 <= i < |ts| ensures Load(val, Offset(ReleasedSlots(env, def, map[], ts), i)) == ptrs[i] {
      assert Offsets(StoredSlots(env, ts))[i] == Offsets(ReleasedSlots(env, def, map[], ts))[i];
      StoredAt(env, ts, ptrs, |ts|, i);
    }
    VisitsFind(env, def, ts, val, ptrs, |ts|);
  }

  /** Boxing a temporary hands its references over to the box. */
  lemma BoxBalances(env: Env, h: Heap, def: EnumDef, val: EnumVal, ext: multiset<Ptr>)
    requires h != [] && Balanced(env, h, ext + NonNull(Payloads(env, def, val)))
    ensures Balanced(env, h + [Box(1, def, val)], ext + multiset{|h|})
  {
    var c := Box(1, def, val);
    var k := h + [c];
    assert k[..|h|] == h;
    assert CellRefs(env, c) == Payloads(env, def, val);
    var refs := ext + NonNull(Payloads(env, def, val)) + HeapRefs(env, h);
    hide Payloads, NonNull, CellRefs, CountsAre;
    CountsNew(h, c, refs);
    assert ext + multiset{|h|} + HeapRefs(env, k) == refs + multiset{|h|};
  }

  /** Boxing a copy of a value that keeps its owner retains the payloads first. */
  lemma CopyBalances(env: Env, h: Heap, def: EnumDef, val: EnumVal, ext: multiset<Ptr>)
    requires h != [] && Balanced(env, h, ext) && AllLive(h, Payloads(env, def, val))
    ensures
      var r := RetainAll(h, Payloads(env, def, val));
      r.Some? && Balanced(env, r.value + [Box(1, def, val)], ext + multiset{|h|})
  {
    var ps := Payloads(env, def, val);
    hide Payloads;
    RetainRaises(h, h, ps, multiset{});
    assert multiset{} + NonNull(ps) == NonNull(ps);
    RaisedBalances(env, h, RetainAll(h, ps).value, ps, ext);
    BoxBalances(env, RetainAll(h, ps).value, def, val, ext);
  }

  lemma RaisedBalances(env: Env, h: Heap, k: Heap, ps: seq<Ptr>, ext: multiset<Ptr>)
    requires Balanced(env, h, ext) && AllLive(h, ps) && Raised(h, k, NonNull(ps))
    ensures Balanced(env, k, ext + NonNull(ps))
  {
    RaisedRefs(env, h, k, NonNull(ps));
    NonNullIn(ps);
    forall p | p in NonNull(ps) ensures 0 < p < |h| && !h[p].Freed? {
      var i :| 0 <= i < |ps| && ps[i] == p;
    }
    hide HeapRefs, NonNull, CountsAre, AllLive;
    CountsRaised(h, k, ext + HeapRefs(env, h), NonNull(ps));
    assert ext + NonNull(ps) + HeapRefs(env, k) == ext + HeapRefs(env, h) + NonNull(ps);
  }

  lemma {:induction false} RaisedRefs(env: Env, h: Heap, k: Heap, more: multiset<Ptr>)
    requires Raised(h, k, more)
    ensures HeapRefs(env, k) == HeapRefs(env, h)
    decreases |h|
  {
    hide NonNull, Payloads;
    if h != [] {
      var n := |h| - 1;
      RaisedRefs(env, h[..n], k[..n], more);
      assert CellRefs(env, k[n]) == CellRefs(env, h[n]);
    }
  }

  lemma {:induction false} NonNullIn(ps: seq<Ptr>)
    ensures forall p :: p in NonNull(ps) ==> p != 0 && p in ps
    decreases |ps|
  {
    if ps != [] { NonNullIn(ps[1..]); }
  }
}
