/**
 The references that enum values hold, taken from the values themselves: a payload is a string,
 an array, a buffer, a struct, a boxed enum, or a plain word. The generated walks know only the
 names of the declared types. This module says what they find of what is there, and that counts
 stay equal to the references where they find all of it.
 */
module EnumReferences {
  import opened EnumLayout
  import opened EnumOwnership

  // ---- Values ----

  datatype Value = Plain(word: nat) | StringOf(p: Ptr) | ArrayOf(p: Ptr) | BufferOf(p: Ptr) | StructOf(p: Ptr) | BoxOf(p: Ptr)

  function Word(v: Value): Ptr {
    if v.Plain? then v.word else v.p
  }

  function Words(vs: seq<Value>): (r: seq<Ptr>)
    ensures |r| == |vs|
  {
    seq(|vs|, i requires 0 <= i < |vs| => Word(vs[i]))
  }

  /** The values of a type. An enum without any payload is a plain number, all others are boxed. */
  predicate HasType(env: Env, t: string, v: Value) {
    if t == "string" then v.StringOf?
    else if t == "Array" then v.ArrayOf?
    else if t == "Buffer" then v.BufferOf?
    else if t in env.structs then v.StructOf?
    else if t in env.enums && !IsPlainEnum(env, t) then v.BoxOf?
    else v.Plain?
  }

  predicate IsPlainEnum(env: Env, t: string) {
    && t != "string" && t != "Array" && t != "Buffer" && t !in env.structs
    && t in env.enums && forall v :: v in env.enums[t].variants ==> v.types == []
  }

  /** A reference, and how it is counted. */
  datatype Reference = Reference(kind: RcKind, p: Ptr)

  function Held(kind: RcKind, p: Ptr): multiset<Reference> {
    if p == 0 then multiset{} else multiset{Reference(kind, p)}
  }

  function RefsOf(v: Value): multiset<Reference> {
    match v
    case Plain(_) => multiset{}
    case StringOf(p) => Held(StringRc, p)
    case ArrayOf(p) => Held(ArrayRc, p)
    case BufferOf(p) => Held(BufferRc, p)
    case StructOf(p) => Held(BoxOrStructRc, p)
    case BoxOf(p) => Held(BoxOrStructRc, p)
  }

  /** A plain enum number that a walk takes for a pointer. */
  function Stray(env: Env, t: string, v: Value): multiset<Reference> {
    if IsPlainEnum(env, t) then Held(BoxOrStructRc, Word(v)) else multiset{}
  }

  /** The first n payloads, those of erased types left out unless `erased`. */
  function AllRefs(def: EnumDef, ts: seq<string>, vs: seq<Value>, erased: bool, n: nat): multiset<Reference>
    requires n <= |ts| == |vs|
  {
    if n == 0 then multiset{}
    else AllRefs(def, ts, vs, erased, n - 1) + (if erased || ts[n - 1] !in def.generics then RefsOf(vs[n - 1]) else multiset{})
  }

  function AllStrays(env: Env, def: EnumDef, inst: Instance, ts: seq<string>, vs: seq<Value>, erased: bool, n: nat): multiset<Reference>
    requires n <= |ts| == |vs|
  {
    if n == 0 then multiset{}
    else
      AllStrays(env, def, inst, ts, vs, erased, n - 1)
      + (if erased || ts[n - 1] !in def.generics then Stray(env, Resolve(def, inst, ts[n - 1]), vs[n - 1]) else multiset{})
  }

  /** A value of one instance of the enum, with a layout on which the walks agree. */
  predicate WellTyped(env: Env, def: EnumDef, inst: Instance, tag: nat, vs: seq<Value>) {
    && tag < |def.variants| && |vs| == |def.variants[tag].types|
    && var ts := def.variants[tag].types;
       (forall i :: 0 <= i < |ts| ==> HasType(env, Resolve(def, inst, ts[i]), vs[i]))
       && (forall i :: 0 <= i < |ts| - 1 ==> Fits(env, def, inst, ts[i]))
  }

  function Built(env: Env, def: EnumDef, inst: Instance, tag: nat, vs: seq<Value>): EnumVal
    requires WellTyped(env, def, inst, tag, vs)
  {
    Construct(env, tag, Actual(def, inst, def.variants[tag].types), Words(vs))
  }

  // ---- What a walk finds ----

  /** What the visits of a walk read from a value. */
  function Found(val: EnumVal, visits: seq<Visit>): multiset<Reference> {
    if visits == [] then multiset{}
    else
      Found(val, visits[..|visits| - 1])
      + Held(visits[|visits| - 1].kind, Load(val, visits[|visits| - 1].offset))
  }

  lemma FoundMore(val: EnumVal, visits: seq<Visit>, v: Visit)
    ensures Found(val, visits + [v]) == Found(val, visits) + Held(v.kind, Load(val, v.offset))
  {
    assert (visits + [v])[..|visits|] == visits;
  }

  /** Payload `i` is where the walk looks for it, whichever instance the walk is generated for. */
  lemma LoadedWord(env: Env, def: EnumDef, inst: Instance, w: Instance, tag: nat, vs: seq<Value>, i: nat)
    requires WellTyped(env, def, inst, tag, vs) && i < |vs|
    ensures Load(Built(env, def, inst, tag, vs), Offset(ReleasedSlots(env, def, w, def.variants[tag].types), i)) == Word(vs[i])
  {
    var ts := def.variants[tag].types;
    var args := Actual(def, inst, ts);
    LayoutAgrees(env, def, inst, ts);
    ReleaseIsReserved(env, def, inst, ts);
    ReleaseIsReserved(env, def, w, ts);
    hide Fits, StoredSlot, ReleasedSlot, ReservedSlot, Resolve, HasType;
    assert Offsets(StoredSlots(env, args))[i] == Offsets(ReleasedSlots(env, def, w, ts))[i];
    StoredAt(env, args, Words(vs), |args|, i);
  }

  /** For a well-typed payload whose type the walk knows it finds the reference, or a stray number. */
  lemma KnownPayload(env: Env, t: string, v: Value)
    requires HasType(env, t, v)
    ensures (if IsRef(env, t) then Held(KindOf(t), Word(v)) else multiset{}) == RefsOf(v) + Stray(env, t, v)
  {
  }

  /** No type parameter has the name of a counted type. */
  predicate Unshadowed(env: Env, def: EnumDef) {
    forall g :: g in def.generics ==>
      g != "string" && g != "Array" && g != "Buffer" && g !in env.structs && g !in env.enums
  }

  /** What a walk for `w` finds of one payload. */
  function Taken(env: Env, def: EnumDef, w: Instance, t: string, word: Ptr): multiset<Reference> {
    if IsRef(env, Resolve(def, w, t)) then Held(KindOf(Resolve(def, w, t)), word) else multiset{}
  }

  lemma FoundStep(env: Env, def: EnumDef, w: Instance, ts: seq<string>, val: EnumVal, n: nat)
    requires 0 < n <= |ts|
    ensures Found(val, Visits(env, def, w, ts, n))
         == Found(val, Visits(env, def, w, ts, n - 1))
            + Taken(env, def, w, ts[n - 1], Load(val, Offset(ReleasedSlots(env, def, w, ts), n - 1)))
  {
    hide IsRef, KindOf, Load, Offset, ReleasedSlots, Found, Held;
    var o := Offset(ReleasedSlots(env, def, w, ts), n - 1);
    FoundMore(val, Visits(env, def, w, ts, n - 1), Visit(o, KindOf(Resolve(def, w, ts[n - 1]))));
  }

  /** One payload: everything, or nothing if its type is erased for the walk. */
  lemma OneTaken(env: Env, def: EnumDef, inst: Instance, w: Instance, t: string, v: Value)
    requires HasType(env, Resolve(def, inst, t), v) && (w == inst || (w == map[] && Unshadowed(env, def)))
    ensures Taken(env, def, w, t, Word(v))
         == if w == inst || t !in def.generics then RefsOf(v) + Stray(env, Resolve(def, inst, t), v) else multiset{}
  {
    hide HasType, IsRef, KindOf, Held, RefsOf, Stray, Word;
    KnownPayload(env, Resolve(def, inst, t), v);
    if w != inst && t in def.generics { NotCounted(env, def, t); }
  }

  lemma {:induction false} VisitsFindRefs(env: Env, def: EnumDef, inst: Instance, w: Instance, tag: nat, vs: seq<Value>, n: nat)
    requires WellTyped(env, def, inst, tag, vs) && n <= |vs| && (w == inst || (w == map[] && Unshadowed(env, def)))
    ensures
      var ts := def.variants[tag].types;
      Found(Built(env, def, inst, tag, vs), Visits(env, def, w, ts, n))
      == AllRefs(def, ts, vs, w == inst, n) + AllStrays(env, def, inst, ts, vs, w == inst, n)
    decreases n
  {
    hide HasType, Taken, Stray, RefsOf, Built, Fits, Visits, Found, Unshadowed;
    if n > 0 {
      var ts := def.variants[tag].types;
      VisitsFindRefs(env, def, inst, w, tag, vs, n - 1);
      LoadedWord(env, def, inst, w, tag, vs, n - 1);
      FoundStep(env, def, w, ts, Built(env, def, inst, tag, vs), n);
      OneTaken(env, def, inst, w, ts[n - 1], vs[n - 1]);
      hide WellTyped;
      Regroup(AllRefs(def, ts, vs, w == inst, n - 1), AllStrays(env, def, inst, ts, vs, w == inst, n - 1),
              RefsOf(vs[n - 1]), Stray(env, Resolve(def, inst, ts[n - 1]), vs[n - 1]));
    } else {
      NothingFound(env, def, w, Built(env, def, inst, tag, vs), def.variants[tag].types);
    }
  }

  lemma NothingFound(env: Env, def: EnumDef, w: Instance, val: EnumVal, ts: seq<string>)
    ensures Found(val, Visits(env, def, w, ts, 0)) == multiset{}
  {
  }

  lemma Regroup<T>(a: multiset<T>, b: multiset<T>, x: multiset<T>, y: multiset<T>)
    ensures a + b + (x + y) == (a + x) + (b + y) && a + b + multiset{} == (a + multiset{}) + (b + multiset{})
    ensures a + b == a <==> b == multiset{}
  {
    if a + b == a { assert a + b - a == b && a - a == multiset{}; }
  }

  lemma NotCounted(env: Env, def: EnumDef, g: string)
    requires Unshadowed(env, def) && g in def.generics
    ensures Resolve(def, map[], g) == g && !IsRef(env, g)
  {
  }

  /**
   The walk for an instance finds every reference of a value of that instance, each with its
   kind, and besides that only numbers of plain enums.
   */
  lemma WalkFindsReferences(env: Env, def: EnumDef, inst: Instance, tag: nat, vs: seq<Value>)
    requires WellTyped(env, def, inst, tag, vs)
    ensures
      var ts := def.variants[tag].types;
      Found(Built(env, def, inst, tag, vs), Walk(env, def, inst)[tag])
      == AllRefs(def, ts, vs, true, |ts|) + AllStrays(env, def, inst, ts, vs, true, |ts|)
  {
    hide Fits, HasType, Built;
    VisitsFindRefs(env, def, inst, inst, tag, vs, |vs|);
  }

  /** So it finds exactly the references if and only if every plain enum among the payloads is its variant 0. */
  lemma WalkIsExact(env: Env, def: EnumDef, inst: Instance, tag: nat, vs: seq<Value>)
    requires WellTyped(env, def, inst, tag, vs)
    ensures
      var ts := def.variants[tag].types;
      Found(Built(env, def, inst, tag, vs), Walk(env, def, inst)[tag]) == AllRefs(def, ts, vs, true, |ts|)
      <==> forall i :: 0 <= i < |ts| && IsPlainEnum(env, Resolve(def, inst, ts[i])) ==> Word(vs[i]) == 0
  {
    hide Built, Walk, Found, IsPlainEnum, Fits, HasType, AllRefs, AllStrays;
    var ts := def.variants[tag].types;
    WalkFindsReferences(env, def, inst, tag, vs);
    NoStrays(env, def, inst, ts, vs, true, |ts|);
    Regroup(AllRefs(def, ts, vs, true, |ts|), AllStrays(env, def, inst, ts, vs, true, |ts|), multiset{}, multiset{});
  }

  lemma {:induction false} NoStrays(env: Env, def: EnumDef, inst: Instance, ts: seq<string>, vs: seq<Value>, erased: bool, n: nat)
    requires n <= |ts| == |vs|
    ensures AllStrays(env, def, inst, ts, vs, erased, n) == multiset{}
       <==> forall i :: 0 <= i < n && IsPlainEnum(env, Resolve(def, inst, ts[i])) && (erased || ts[i] !in def.generics) ==> Word(vs[i]) == 0
    decreases n
  {
    hide IsPlainEnum, Resolve;
    if n > 0 {
      NoStrays(env, def, inst, ts, vs, erased, n - 1);
      var s := if erased || ts[n - 1] !in def.generics then Stray(env, Resolve(def, inst, ts[n - 1]), vs[n - 1]) else multiset{};
      assert s == multiset{} <==> (IsPlainEnum(env, Resolve(def, inst, ts[n - 1])) && (erased || ts[n - 1] !in def.generics) ==> Word(vs[n - 1]) == 0) by {
        if IsPlainEnum(env, Resolve(def, inst, ts[n - 1])) && Word(vs[n - 1]) != 0 {
          assert Reference(BoxOrStructRc, Word(vs[n - 1])) in Held(BoxOrStructRc, Word(vs[n - 1]));
        }
      }
      var before := AllStrays(env, def, inst, ts, vs, erased, n - 1);
      assert |before + s| == |before| + |s|;
    }
  }

  /**
   Boxes are retained and released by the walk generated without an instance. Of a value of an
   instance it finds what is not behind a type parameter.
   */
  lemma ErasedWalkFinds(env: Env, def: EnumDef, inst: Instance, tag: nat, vs: seq<Value>)
    requires WellTyped(env, def, inst, tag, vs) && Unshadowed(env, def)
    ensures
      var ts := def.variants[tag].types;
      Found(Built(env, def, inst, tag, vs), Walk(env, def, map[])[tag])
      == AllRefs(def, ts, vs, inst == map[], |ts|) + AllStrays(env, def, inst, ts, vs, inst == map[], |ts|)
  {
    VisitsFindRefs(env, def, inst, map[], tag, vs, |vs|);
  }

  lemma {:induction false} ErasedLoss(def: EnumDef, ts: seq<string>, vs: seq<Value>, n: nat)
    requires n <= |ts| == |vs|
    ensures |AllRefs(def, ts, vs, false, n)| <= |AllRefs(def, ts, vs, true, n)|
    ensures |AllRefs(def, ts, vs, false, n)| == |AllRefs(def, ts, vs, true, n)|
       <==> forall i :: 0 <= i < n && ts[i] in def.generics ==> RefsOf(vs[i]) == multiset{}
    decreases n
  {
    hide RefsOf;
    if n > 0 {
      ErasedLoss(def, ts, vs, n - 1);
      var a, b, x := AllRefs(def, ts, vs, false, n - 1), AllRefs(def, ts, vs, true, n - 1), RefsOf(vs[n - 1]);
      assert |a + x| == |a| + |x| && |b + x| == |b| + |x|;
      assert |x| == 0 <==> x == multiset{};
    }
  }

  /** It misses nothing if and only if no reference is behind a type parameter. */
  lemma ErasedWalkIsExact(env: Env, def: EnumDef, inst: Instance, tag: nat, vs: seq<Value>)
    requires WellTyped(env, def, inst, tag, vs) && Unshadowed(env, def) && inst != map[]
    requires
      var ts := def.variants[tag].types;
      forall i :: 0 <= i < |ts| && IsPlainEnum(env, Resolve(def, inst, ts[i])) ==> Word(vs[i]) == 0
    ensures
      var ts := def.variants[tag].types;
      Found(Built(env, def, inst, tag, vs), Walk(env, def, map[])[tag]) == AllRefs(def, ts, vs, true, |ts|)
      <==> forall i :: 0 <= i < |ts| && ts[i] in def.generics ==> RefsOf(vs[i]) == multiset{}
  {
    hide Built, Walk, Found, IsPlainEnum, Fits, HasType, AllRefs, AllStrays, RefsOf, Unshadowed;
    var ts := def.variants[tag].types;
    ErasedWalkFinds(env, def, inst, tag, vs);
    NoStrays(env, def, inst, ts, vs, false, |ts|);
    ErasedLoss(def, ts, vs, |ts|);
    var a := AllRefs(def, ts, vs, false, |ts|);
    assert a + multiset{} == a;
    if forall i :: 0 <= i < |ts| && ts[i] in def.generics ==> RefsOf(vs[i]) == multiset{} {
      NothingErased(def, ts, vs, |ts|);
    }
  }

  /** A string in a boxed option is forgotten: the box goes, and the string keeps its count. */
  lemma BoxedOptionLeaks()
    ensures
      var env := Env(map[], {}, map["string" := 8]);
      var def := EnumDef(["T"], [Variant("some", ["T"])]);
      var inst, vs := map["T" := "string"], [StringOf(1)];
      && WellTyped(env, def, inst, 0, vs)
      && Release(env, [Freed, Leaf(1), Box(1, def, Built(env, def, inst, 0, vs))], 2) == Some([Freed, Leaf(1), Freed])
  {
    hide Built;
    var env := Env(map[], {}, map["string" := 8]);
    var def := EnumDef(["T"], [Variant("some", ["T"])]);
    var inst, vs := map["T" := "string"], [StringOf(1)];
    assert Resolve(def, inst, "T") == "string";
    assert HasType(env, "string", vs[0]);
    assert WellTyped(env, def, inst, 0, vs);
    var h := [Freed, Leaf(1), Box(1, def, Built(env, def, inst, 0, vs))];
    assert Resolve(def, map[], "T") == "T" && !IsRef(env, "T");
    assert Visits(env, def, map[], ["T"], 0) == [] == Visits(env, def, map[], ["T"], 1);
    assert CellRefs(env, h[2]) == [];
    assert h[2 := Freed] == [Freed, Leaf(1), Freed];
  }

  /** Variant 1 of a plain enum is taken for the address of cell 1: a string that others own is freed. */
  lemma PlainEnumIsReleased()
    ensures
      var env := Env(map["Color" := EnumDef([], [Variant("red", []), Variant("green", [])])], {}, map["Color" := 4]);
      var def := EnumDef([], [Variant("painted", ["Color"])]);
      && WellTyped(env, def, map[], 0, [Plain(1)])
      && Release(env, [Freed, Leaf(1), Box(1, def, Built(env, def, map[], 0, [Plain(1)]))], 2) == Some([Freed, Freed, Freed])
  {
    hide Built;
    var color := EnumDef([], [Variant("red", []), Variant("green", [])]);
    var env := Env(map["Color" := color], {}, map["Color" := 4]);
    var def := EnumDef([], [Variant("painted", ["Color"])]);
    assert Resolve(def, map[], "Color") == "Color";
    assert HasType(env, "Color", Plain(1)) && IsRef(env, "Color");
    assert WellTyped(env, def, map[], 0, [Plain(1)]);
    var val := Built(env, def, map[], 0, [Plain(1)]);
    assert val.tag == 0 by { BuiltTag(env, def, map[], 0, [Plain(1)]); }
    var h := [Freed, Leaf(1), Box(1, def, val)];
    LoadedWord(env, def, map[], map[], 0, [Plain(1)], 0);
    assert Visits(env, def, map[], ["Color"], 0) == [];
    assert Visits(env, def, map[], ["Color"], 1) == [Visit(Offset(ReleasedSlots(env, def, map[], ["Color"]), 0), BoxOrStructRc)];
    assert CellRefs(env, h[2]) == [1];
    var k := h[2 := Freed];
    assert k == [Freed, Leaf(1), Freed];
    FreesOne(env, k);
  }

  lemma BuiltTag(env: Env, def: EnumDef, inst: Instance, tag: nat, vs: seq<Value>)
    requires WellTyped(env, def, inst, tag, vs)
    ensures Built(env, def, inst, tag, vs).tag == tag
  {
  }

  lemma FreesOne(env: Env, k: Heap)
    requires k == [Freed, Leaf(1), Freed]
    ensures ReleaseAll(env, k, [1]) == Some([Freed, Freed, Freed])
  {
    var k1 := k[1 := Freed];
    assert k1 == [Freed, Freed, Freed];
    assert CellRefs(env, k[1]) == [];
    assert ReleaseAll(env, k1, []) == Some(k1);
    assert Release(env, k, 1) == Some(k1);
    assert [1][1..] == [];
  }

  // ---- Pointers, without the kind of their count ----

  /** The references of the values themselves. */
  function Pointers(vs: seq<Value>): multiset<Ptr> {
    if vs == [] then multiset{} else Pointers(vs[..|vs| - 1]) + (if vs[|vs| - 1].Plain? then multiset{} else One(vs[|vs| - 1].p))
  }

  function Ptrs(rs: multiset<Reference>, p: Ptr): nat {
    rs[Reference(StringRc, p)] + rs[Reference(ArrayRc, p)] + rs[Reference(BufferRc, p)] + rs[Reference(BoxOrStructRc, p)]
  }

  lemma PtrsAdd(a: multiset<Reference>, b: multiset<Reference>, p: Ptr)
    ensures Ptrs(a + b, p) == Ptrs(a, p) + Ptrs(b, p)
  {
  }

  lemma PtrsHeld(kind: RcKind, q: Ptr, p: Ptr)
    ensures Ptrs(Held(kind, q), p) == One(q)[p] && Ptrs(multiset{}, p) == 0
  {
  }

  lemma PtrsOfValue(v: Value, p: Ptr)
    ensures Ptrs(RefsOf(v), p) == if v.Plain? then 0 else One(v.p)[p]
  {
    hide Held, One, Ptrs;
    match v
    case Plain(_) => PtrsHeld(StringRc, 0, p);
    case StringOf(q) => PtrsHeld(StringRc, q, p);
    case ArrayOf(q) => PtrsHeld(ArrayRc, q, p);
    case BufferOf(q) => PtrsHeld(BufferRc, q, p);
    case StructOf(q) => PtrsHeld(BoxOrStructRc, q, p);
    case BoxOf(q) => PtrsHeld(BoxOrStructRc, q, p);
  }

  lemma {:induction false} RefsArePointers(def: EnumDef, ts: seq<string>, vs: seq<Value>, n: nat, p: Ptr)
    requires n <= |ts| == |vs|
    ensures Ptrs(AllRefs(def, ts, vs, true, n), p) == Pointers(vs[..n])[p]
    decreases n
  {
    hide Ptrs, RefsOf, One;
    PtrsHeld(StringRc, 0, p);
    if n > 0 {
      RefsArePointers(def, ts, vs, n - 1, p);
      assert vs[..n][..n - 1] == vs[..n - 1];
      PtrsAdd(AllRefs(def, ts, vs, true, n - 1), RefsOf(vs[n - 1]), p);
      PtrsOfValue(vs[n - 1], p);
    }
  }

  lemma {:induction false} NonNullAppend(ps: seq<Ptr>, p: Ptr)
    ensures NonNull(ps + [p]) == NonNull(ps) + One(p)
    decreases |ps|
  {
    if ps == [] {
      assert NonNull([]) == multiset{} && [p][1..] == [] && ps + [p] == [p];
    } else {
      assert (ps + [p])[1..] == ps[1..] + [p];
      NonNullAppend(ps[1..], p);
      assert One(ps[0]) + (NonNull(ps[1..]) + One(p)) == One(ps[0]) + NonNull(ps[1..]) + One(p);
    }
  }

  lemma NoPointers()
    ensures NonNull([]) == multiset{}
  {
  }

  /** What a walk finds are the pointers it loads. */
  lemma {:induction false} FoundAreLoaded(val: EnumVal, visits: seq<Visit>, p: Ptr)
    ensures Ptrs(Found(val, visits), p) == NonNull(LoadAll(val, visits))[p]
    decreases |visits|
  {
    hide Ptrs, Held, One, NonNull, Load;
    PtrsHeld(StringRc, 0, p);
    if visits != [] {
      var init, n := visits[..|visits| - 1], |visits| - 1;
      FoundAreLoaded(val, init, p);
      PtrsAdd(Found(val, init), Held(visits[n].kind, Load(val, visits[n].offset)), p);
      PtrsHeld(visits[n].kind, Load(val, visits[n].offset), p);
      NonNullAppend(LoadAll(val, init), Load(val, visits[n].offset));
      assert LoadAll(val, visits) == LoadAll(val, init) + [Load(val, visits[n].offset)];
    } else {
      assert LoadAll(val, visits) == [] && NonNull([]) == multiset{} by { NoPointers(); }
    }
  }

  // ---- Conservation, counting the references that are stored ----

  /** What was put into a box: values of an instance of its enum. */
  datatype Contents = Contents(inst: Instance, vs: seq<Value>)

  /**
   A box holds its contents, and a walk without an instance finds all references among them:
   none is behind a type parameter, and plain enums are their variant 0.
   */
  ghost predicate Holds(env: Env, c: Cell, k: Contents) {
    c.Box? ==>
      && WellTyped(env, c.def, k.inst, c.val.tag, k.vs) && Unshadowed(env, c.def)
      && c.val == Built(env, c.def, k.inst, c.val.tag, k.vs)
      && Findable(env, c.def, k.inst, c.def.variants[c.val.tag].types, k.vs)
  }

  predicate Findable(env: Env, def: EnumDef, inst: Instance, ts: seq<string>, vs: seq<Value>)
    requires |ts| == |vs|
  {
    forall i :: 0 <= i < |ts| ==>
      && (ts[i] in def.generics ==> RefsOf(vs[i]) == multiset{})
      && (IsPlainEnum(env, Resolve(def, inst, ts[i])) ==> Word(vs[i]) == 0)
  }

  ghost predicate AllHold(env: Env, h: Heap, store: seq<Contents>) {
    |store| == |h| && forall p :: 0 <= p < |h| ==> Holds(env, h[p], store[p])
  }

  lemma {:induction false} NothingErased(def: EnumDef, ts: seq<string>, vs: seq<Value>, n: nat)
    requires n <= |ts| == |vs| && forall i :: 0 <= i < n && ts[i] in def.generics ==> RefsOf(vs[i]) == multiset{}
    ensures AllRefs(def, ts, vs, false, n) == AllRefs(def, ts, vs, true, n)
    decreases n
  {
    hide RefsOf;
    if n > 0 { NothingErased(def, ts, vs, n - 1); }
  }

  /** The walk of a box finds exactly the pointers of its contents. */
  lemma BoxPointers(env: Env, c: Cell, k: Contents)
    requires c.Box? && Holds(env, c, k)
    ensures NonNull(CellRefs(env, c)) == Pointers(k.vs)
  {
    hide HasType, Fits, Built, AllRefs, AllStrays, RefsOf, IsPlainEnum, Found, Pointers, NonNull, LoadAll, Walk, Unshadowed;
    var def, inst, vs := c.def, k.inst, k.vs;
    var ts := def.variants[c.val.tag].types;
    ErasedWalkFinds(env, def, inst, c.val.tag, vs);
    NoStrays(env, def, inst, ts, vs, inst == map[], |ts|);
    NothingErased(def, ts, vs, |ts|);
    var visits := Walk(env, def, map[])[c.val.tag];
    assert Found(c.val, visits) == AllRefs(def, ts, vs, true, |ts|) + multiset{};
    assert vs[..|ts|] == vs;
    forall p ensures NonNull(LoadAll(c.val, visits))[p] == Pointers(vs)[p] {
      FoundAreLoaded(c.val, visits, p);
      RefsArePointers(def, ts, vs, |ts|, p);
    }
  }

  /** All references stored in boxes that have not been freed. */
  function StoredRefs(h: Heap, store: seq<Contents>): multiset<Ptr>
    requires |store| == |h|
  {
    if h == [] then multiset{}
    else
      StoredRefs(h[..|h| - 1], store[..|h| - 1])
      + (if h[|h| - 1].Box? then Pointers(store[|h| - 1].vs) else multiset{})
  }

  lemma {:induction false} StoredAreFound(env: Env, h: Heap, store: seq<Contents>)
    requires AllHold(env, h, store)
    ensures StoredRefs(h, store) == HeapRefs(env, h)
    decreases |h|
  {
    hide Holds, Pointers, CellRefs, NonNull;
    if h != [] {
      var n := |h| - 1;
      StoredAreFound(env, h[..n], store[..n]);
      if h[n].Box? { BoxPointers(env, h[n], store[n]); } else { NoBoxNoRefs(env, h[n]); }
    }
  }

  lemma NoBoxNoRefs(env: Env, c: Cell)
    ensures !c.Box? ==> NonNull(CellRefs(env, c)) == multiset{}
  {
  }

  /** Every count is the number of references, those from outside and those stored in boxes. */
  ghost predicate Conserved(env: Env, h: Heap, store: seq<Contents>, ext: multiset<Ptr>) {
    AllHold(env, h, store) && CountsAre(h, ext + StoredRefs(h, store))
  }

  lemma ConservedIsBalanced(env: Env, h: Heap, store: seq<Contents>, ext: multiset<Ptr>)
    requires AllHold(env, h, store)
    ensures Conserved(env, h, store, ext) <==> Balanced(env, h, ext)
  {
    hide AllHold, CountsAre;
    StoredAreFound(env, h, store);
  }

  lemma ShrunkHolds(env: Env, h: Heap, k: Heap, store: seq<Contents>)
    requires AllHold(env, h, store) && Shrinks(h, k)
    ensures AllHold(env, k, store)
  {
    hide WellTyped, Findable, Built, Unshadowed;
    forall p | 0 <= p < |k| ensures Holds(env, k[p], store[p]) {
      assert Holds(env, h[p], store[p]);
    }
  }

  /** A release never meets a freed cell, and afterwards every count is again the number of stored references. */
  lemma ReleaseConserves(env: Env, h: Heap, store: seq<Contents>, p: Ptr, ext: multiset<Ptr>)
    requires Conserved(env, h, store, ext + One(p))
    ensures Release(env, h, p).Some? && Conserved(env, Release(env, h, p).value, store, ext)
  {
    hide AllHold, CountsAre, Release, StoredRefs, HeapRefs, Shrinks;
    assert AllHold(env, h, store);
    ConservedIsBalanced(env, h, store, ext + One(p));
    ReleaseBalances(env, h, p, ext);
    ReleaseShrinks(env, h, p);
    ShrunkHolds(env, h, Release(env, h, p).value, store);
    ConservedIsBalanced(env, Release(env, h, p).value, store, ext);
  }

  /** With the last owner goes the whole tree: boxes that hold only cells made before them are all freed. */
  lemma OwnedTreeIsFreed(env: Env, h: Heap, store: seq<Contents>, p: Ptr)
    requires Conserved(env, h, store, One(p))
    requires forall i, q :: 0 <= i < |h| && h[i].Box? && q in Pointers(store[i].vs) ==> q < i
    ensures Release(env, h, p).Some? && forall q :: 0 <= q < |h| ==> Release(env, h, p).value[q].Freed?
  {
    hide Holds, CountsAre, Release, StoredRefs, HeapRefs, Pointers, CellRefs, NonNull;
    ConservedIsBalanced(env, h, store, One(p));
    forall i, q | 0 <= i < |h| && q in NonNull(CellRefs(env, h[i])) ensures q < i {
      if h[i].Box? { BoxPointers(env, h[i], store[i]); } else { NoBoxNoRefs(env, h[i]); }
    }
    TreeIsFreed(env, h, p);
  }

  /** Boxing freshly made values hands their references over to the box. */
  lemma BoxConserves(env: Env, h: Heap, store: seq<Contents>, c: Cell, k: Contents, ext: multiset<Ptr>)
    requires h != [] && c.Box? && c.count == 1 && Holds(env, c, k) && Conserved(env, h, store, ext + Pointers(k.vs))
    ensures Conserved(env, h + [c], store + [k], ext + multiset{|h|})
  {
    hide Holds, CountsAre, Pointers, CellRefs, NonNull, HeapRefs;
    BoxPointers(env, c, k);
    assert CellRefs(env, c) == Payloads(env, c.def, c.val) by { BoxRefs(env, c); }
    ConservedIsBalanced(env, h, store, ext + Pointers(k.vs));
    BoxBalances(env, h, c.def, c.val, ext);
    assert c == Box(1, c.def, c.val);
    assert AllHold(env, h + [c], store + [k]);
    ConservedIsBalanced(env, h + [c], store + [k], ext + multiset{|h|});
  }

  lemma BoxRefs(env: Env, c: Cell)
    requires c.Box?
    ensures CellRefs(env, c) == Payloads(env, c.def, c.val)
  {
  }

  lemma RaisedHolds(env: Env, h: Heap, k: Heap, store: seq<Contents>, more: multiset<Ptr>)
    requires AllHold(env, h, store) && Raised(h, k, more)
    ensures AllHold(env, k, store)
  {
    hide WellTyped, Findable, Built, Unshadowed;
    forall p | 0 <= p < |k| ensures Holds(env, k[p], store[p]) {
      assert Holds(env, h[p], store[p]);
    }
  }

  /** Boxing a copy of values that keep their owner retains them first, so owner and box both have references. */
  lemma CopyConserves(env: Env, h: Heap, store: seq<Contents>, c: Cell, k: Contents, ext: multiset<Ptr>)
    requires h != [] && c.Box? && c.count == 1 && Holds(env, c, k) && Conserved(env, h, store, ext)
    requires AllLive(h, Payloads(env, c.def, c.val))
    ensures
      var r := RetainAll(h, Payloads(env, c.def, c.val));
      r.Some? && Conserved(env, r.value + [c], store + [k], ext + multiset{|h|})
  {
    hide Holds, CountsAre, Pointers, CellRefs, NonNull, HeapRefs, Payloads, RetainAll, AllLive, Raised;
    var ps := Payloads(env, c.def, c.val);
    ConservedIsBalanced(env, h, store, ext);
    NothingMore(h);
    RetainRaises(h, h, ps, multiset{});
    CopyBalances(env, h, c.def, c.val, ext);
    var r := RetainAll(h, ps).value;
    RaisedHolds(env, h, r, store, multiset{} + NonNull(ps));
    assert c == Box(1, c.def, c.val);
    assert AllHold(env, r + [c], store + [k]) by { hide Balanced; }
    ConservedIsBalanced(env, r + [c], store + [k], ext + multiset{|h|});
  }

  lemma NothingMore(h: Heap)
    ensures Raised(h, h, multiset{})
  {
  }
}
