/**
 Where the payloads of an enum value lie. Four loops of the code generator walk the payload
 area independently: reserving its size, storing on construction, loading on a match, and
 retaining or releasing. This module says exactly when they agree.
 */
module EnumLayout {
  datatype Variant = Variant(name: string, types: seq<string>)
  datatype EnumDef = EnumDef(generics: seq<string>, variants: seq<Variant>)

  /** `sizes`: the allocation sizes of the machine types, by name of the source type. */
  datatype Env = Env(enums: map<string, EnumDef>, structs: set<string>, sizes: map<string, nat>)

  /** The types given to the generic parameters, where they are known. */
  type Instance = map<string, string>

  const PTR_SIZE := 8

  function AllocSize(env: Env, t: string): (n: nat)
    ensures n > 0
  {
    if t in env.sizes && env.sizes[t] > 0 then env.sizes[t] else 4
  }

  /** The declared type of a payload, with a generic parameter replaced where possible. */
  function Resolve(def: EnumDef, inst: Instance, t: string): string {
    if t in def.generics && t in inst then inst[t] else t
  }

  predicate HasPayload(def: EnumDef) {
    exists v :: v in def.variants && v.types != []
  }

  // ---- The four walks, slot by slot ----

  /** Size reservation: erased and boxed payloads take a pointer. */
  function ReservedSlot(env: Env, def: EnumDef, t: string): (n: nat)
    ensures n > 0
  {
    if t in def.generics then PTR_SIZE else if t in env.enums then PTR_SIZE else AllocSize(env, t)
  }

  /** Construction: an argument that is an enum value is boxed, anything else is stored as it is. */
  function StoredSlot(env: Env, arg: string): (n: nat)
    ensures n > 0
  {
    if arg in env.enums && HasPayload(env.enums[arg]) then PTR_SIZE else AllocSize(env, arg)
  }

  /** Match binding: an enum is behind a box, anything else is loaded as it is. */
  function BoundSlot(env: Env, binding: string): (n: nat)
    ensures n > 0
  {
    if binding in env.enums then PTR_SIZE else AllocSize(env, binding)
  }

  /** Retain and release. */
  function ReleasedSlot(env: Env, def: EnumDef, inst: Instance, t: string): (n: nat)
    ensures n > 0
  {
    if t in def.generics || Resolve(def, inst, t) in env.enums then PTR_SIZE
    else AllocSize(env, Resolve(def, inst, t))
  }

  function ReservedSlots(env: Env, def: EnumDef, ts: seq<string>): (r: seq<nat>)
    ensures |r| == |ts|
  {
    seq(|ts|, i requires 0 <= i < |ts| => ReservedSlot(env, def, ts[i]))
  }

  function StoredSlots(env: Env, args: seq<string>): (r: seq<nat>)
    ensures |r| == |args|
  {
    seq(|args|, i requires 0 <= i < |args| => StoredSlot(env, args[i]))
  }

  function BoundSlots(env: Env, bindings: seq<string>): (r: seq<nat>)
    ensures |r| == |bindings|
  {
    seq(|bindings|, i requires 0 <= i < |bindings| => BoundSlot(env, bindings[i]))
  }

  function ReleasedSlots(env: Env, def: EnumDef, inst: Instance, ts: seq<string>): (r: seq<nat>)
    ensures |r| == |ts|
  {
    seq(|ts|, i requires 0 <= i < |ts| => ReleasedSlot(env, def, inst, ts[i]))
  }

  function Sum(slots: seq<nat>): nat {
    if slots == [] then 0 else Sum(slots[..|slots| - 1]) + slots[|slots| - 1]
  }

  /** The offset of payload i. */
  function Offset(slots: seq<nat>, i: nat): nat
    requires i <= |slots|
  {
    Sum(slots[..i])
  }

  function Offsets(slots: seq<nat>): (r: seq<nat>)
    ensures |r| == |slots|
  {
    seq(|slots|, i requires 0 <= i < |slots| => Offset(slots, i))
  }

  function MaxSize(env: Env, def: EnumDef, n: nat): nat
    requires n <= |def.variants|
  {
    if n == 0 then 0
    else
      var size := Sum(ReservedSlots(env, def, def.variants[n - 1].types));
      if size > MaxSize(env, def, n - 1) then size else MaxSize(env, def, n - 1)
  }

  /** The reserved payload size, at least one byte. */
  function PayloadSize(env: Env, def: EnumDef): nat {
    var n := MaxSize(env, def, |def.variants|);
    if n == 0 then 1 else n
  }

  // ---- Offsets ----

  lemma OffsetNext(slots: seq<nat>, i: nat)
    requires i < |slots|
    ensures Offset(slots, i + 1) == Offset(slots, i) + slots[i]
  {
    assert slots[..i + 1][..i] == slots[..i];
  }

  /** Slots come one after the other. */
  lemma {:induction false} SlotsDisjoint(slots: seq<nat>, i: nat, j: nat)
    requires i < j <= |slots|
    ensures Offset(slots, i) + slots[i] <= Offset(slots, j)
    decreases j
  {
    OffsetNext(slots, i);
    if i + 1 < j {
      SlotsDisjoint(slots, i, j - 1);
      OffsetNext(slots, j - 1);
    }
  }

  /** Two walks agree on every offset exactly if they agree on every slot but the last. */
  lemma {:induction false} SameOffsets(a: seq<nat>, b: seq<nat>)
    requires |a| == |b|
    ensures Offsets(a) == Offsets(b) <==> forall i :: 0 <= i < |a| - 1 ==> a[i] == b[i]
  {
    if Offsets(a) == Offsets(b) {
      forall i | 0 <= i < |a| - 1 ensures a[i] == b[i] {
        assert Offsets(a)[i] == Offsets(b)[i] && Offsets(a)[i + 1] == Offsets(b)[i + 1];
        OffsetNext(a, i);
        OffsetNext(b, i);
      }
    }
    if forall i :: 0 <= i < |a| - 1 ==> a[i] == b[i] {
      forall i | 0 <= i < |a| ensures Offset(a, i) == Offset(b, i) {
        assert a[..i] == b[..i];
      }
    }
  }

  lemma {:induction false} MaxIsMax(env: Env, def: EnumDef, n: nat, v: nat)
    requires v < n <= |def.variants|
    ensures Sum(ReservedSlots(env, def, def.variants[v].types)) <= MaxSize(env, def, n)
    decreases n
  {
    if v < n - 1 { MaxIsMax(env, def, n - 1, v); }
  }

  /** Some variant needs the largest size, if there is a variant at all. */
  lemma {:induction false} MaxIsNeeded(env: Env, def: EnumDef, n: nat) returns (v: nat)
    requires 0 < n <= |def.variants|
    ensures v < n && MaxSize(env, def, n) == Sum(ReservedSlots(env, def, def.variants[v].types))
    decreases n
  {
    v := n - 1;
    if n > 1 && Sum(ReservedSlots(env, def, def.variants[v].types)) <= MaxSize(env, def, n - 1) {
      v := MaxIsNeeded(env, def, n - 1);
    }
  }

  /** The reserved size is enough for every variant, and no smaller size of at least one byte is. */
  lemma PayloadSizeIsLeast(env: Env, def: EnumDef, n: nat)
    ensures n >= PayloadSize(env, def)
       <==> n >= 1 && forall v :: 0 <= v < |def.variants| ==> Sum(ReservedSlots(env, def, def.variants[v].types)) <= n
  {
    hide ReservedSlots, Sum;
    forall v | 0 <= v < |def.variants|
      ensures Sum(ReservedSlots(env, def, def.variants[v].types)) <= MaxSize(env, def, |def.variants|)
    {
      MaxIsMax(env, def, |def.variants|, v);
    }
    if def.variants != [] { var v := MaxIsNeeded(env, def, |def.variants|); }
  }

  /** A type without a known size takes four bytes, in every walk. */
  lemma UnknownSize(env: Env, def: EnumDef, inst: Instance, t: string)
    requires t !in def.generics && t !in env.enums && (t in env.sizes ==> env.sizes[t] == 0)
    ensures StoredSlot(env, t) == BoundSlot(env, t) == ReleasedSlot(env, def, inst, t) == ReservedSlot(env, def, t) == 4
  {
  }

  // ---- Agreement ----

  /** The types the values of a variant have in one instance of the enum. */
  function Actual(def: EnumDef, inst: Instance, ts: seq<string>): (r: seq<string>)
    ensures |r| == |ts|
  {
    seq(|ts|, i requires 0 <= i < |ts| => Resolve(def, inst, ts[i]))
  }

  /** The value stored in a slot takes exactly the slot. */
  predicate Fits(env: Env, def: EnumDef, inst: Instance, t: string) {
    && StoredSlot(env, Resolve(def, inst, t)) == ReservedSlot(env, def, t)
    && BoundSlot(env, Resolve(def, inst, t)) == ReservedSlot(env, def, t)
  }

  /** Retain and release always walk the reserved layout. */
  lemma ReleaseIsReserved(env: Env, def: EnumDef, inst: Instance, ts: seq<string>)
    ensures ReleasedSlots(env, def, inst, ts) == ReservedSlots(env, def, ts)
  {
  }

  /**
   Layout agreement: construction, match binding and release compute the same offset for every
   payload exactly if every payload but the last fits its slot.
   */
  lemma LayoutAgrees(env: Env, def: EnumDef, inst: Instance, ts: seq<string>)
    ensures
      (&& Offsets(StoredSlots(env, Actual(def, inst, ts))) == Offsets(ReleasedSlots(env, def, inst, ts))
       && Offsets(BoundSlots(env, Actual(def, inst, ts))) == Offsets(ReleasedSlots(env, def, inst, ts)))
      <==> forall i :: 0 <= i < |ts| - 1 ==> Fits(env, def, inst, ts[i])
  {
    hide StoredSlot, BoundSlot, ReservedSlot, ReleasedSlot, Resolve, Offsets;
    ReleaseIsReserved(env, def, inst, ts);
    var r := ReservedSlots(env, def, ts);
    var stored, bound := StoredSlots(env, Actual(def, inst, ts)), BoundSlots(env, Actual(def, inst, ts));
    SameOffsets(stored, r);
    SameOffsets(bound, r);
    forall i | 0 <= i < |ts| ensures Fits(env, def, inst, ts[i]) <==> stored[i] == r[i] && bound[i] == r[i] {
      assert Actual(def, inst, ts)[i] == Resolve(def, inst, ts[i]);
    }
  }

  /** Without generics, everything fits unless a payload-free enum is no pointer wide. */
  lemma PlainTypesFit(env: Env, def: EnumDef, inst: Instance, t: string)
    requires t !in def.generics
    ensures Fits(env, def, inst, t)
       <==> (t in env.enums && (forall v :: v in env.enums[t].variants ==> v.types == []) ==> AllocSize(env, t) == 8)
  {
  }

  /** An erased parameter fits exactly if its type is an enum with payloads or pointer-sized. */
  lemma GenericTypesFit(env: Env, def: EnumDef, inst: Instance, t: string)
    requires t in def.generics && t in inst
    ensures Fits(env, def, inst, t)
       <==> var u := inst[t];
            if u in env.enums then (exists v :: v in env.enums[u].variants && v.types != []) || AllocSize(env, u) == 8
            else AllocSize(env, u) == 8
  {
  }

  /** Two erased 32-bit integers: the second is stored at byte 4 and looked for at byte 8 on release. */
  lemma ErasedPairDisagrees()
    ensures
      var env := Env(map[], {}, map["int" := 4]);
      var def := EnumDef(["T"], [Variant("pair", ["T", "T"])]);
      var inst := map["T" := "int"];
      && Offsets(StoredSlots(env, Actual(def, inst, ["T", "T"]))) == [0, 4]
      && Offsets(ReleasedSlots(env, def, inst, ["T", "T"])) == [0, 8]
  {
    var env := Env(map[], {}, map["int" := 4]);
    var def := EnumDef(["T"], [Variant("pair", ["T", "T"])]);
    var inst := map["T" := "int"];
    var stored, released := StoredSlots(env, Actual(def, inst, ["T", "T"])), ReleasedSlots(env, def, inst, ["T", "T"]);
    OffsetNext(stored, 0);
    OffsetNext(released, 0);
  }

  /** Every slot of every variant lies within the reserved payload area. */
  lemma WithinPayload(env: Env, def: EnumDef, v: nat, i: nat)
    requires v < |def.variants| && i < |def.variants[v].types|
    ensures
      var slots := ReservedSlots(env, def, def.variants[v].types);
      Offset(slots, i) + slots[i] <= PayloadSize(env, def)
  {
    var slots := ReservedSlots(env, def, def.variants[v].types);
    MaxIsMax(env, def, |def.variants|, v);
    SlotsDisjoint(slots, i, |slots|);
    assert slots[..|slots|] == slots;
  }

  // ---- The loops of the code generator ----

  method GetEnumMaxPayloadSize(env: Env, def: EnumDef) returns (maxSize: nat)
    ensures maxSize == PayloadSize(env, def)
  {
    maxSize := 0;
    var v := 0;
    while v < |def.variants|
      invariant v <= |def.variants| && maxSize == MaxSize(env, def, v)
    {
      var types := def.variants[v].types;
      ghost var slots := ReservedSlots(env, def, types);
      var variantSize, i := 0, 0;
      while i < |types|
        invariant i <= |types| && variantSize == Offset(slots, i)
      {
        OffsetNext(slots, i);
        if types[i] in def.generics {
          variantSize := variantSize + PTR_SIZE;
        } else if types[i] in env.enums {
          variantSize := variantSize + PTR_SIZE;
        } else {
          variantSize := variantSize + AllocSize(env, types[i]);
        }
        i := i + 1;
      }
      assert slots[..i] == slots;
      if variantSize > maxSize { maxSize := variantSize; }
      v := v + 1;
    }
    if maxSize == 0 { maxSize := 1; }
  }

  /** The offsets at which construction stores the arguments. */
  method ConstructOffsets(env: Env, types: seq<string>, args: seq<string>) returns (offsets: seq<nat>)
    requires |args| <= |types|
    ensures offsets == Offsets(StoredSlots(env, args))
  {
    offsets := [];
    ghost var slots := StoredSlots(env, args);
    var offset, i := 0, 0;
    while i < |types| && i < |args|
      invariant i <= |args| && offset == Offset(slots, i) && offsets == Offsets(slots)[..i]
    {
      OffsetNext(slots, i);
      offsets := offsets + [offset];
      if args[i] in env.enums && HasPayload(env.enums[args[i]]) {
        offset := offset + PTR_SIZE;
      } else {
        offset := offset + AllocSize(env, args[i]);
      }
      i := i + 1;
    }
  }

  /** The offsets from which a match arm loads its bindings. */
  method MatchOffsets(env: Env, bindings: seq<string>) returns (offsets: seq<nat>)
    ensures offsets == Offsets(BoundSlots(env, bindings))
  {
    offsets := [];
    ghost var slots := BoundSlots(env, bindings);
    var payloadOffset, i := 0, 0;
    while i < |bindings|
      invariant i <= |bindings| && payloadOffset == Offset(slots, i) && offsets == Offsets(slots)[..i]
    {
      OffsetNext(slots, i);
      offsets := offsets + [payloadOffset];
      if bindings[i] in env.enums {
        payloadOffset := payloadOffset + PTR_SIZE;
      } else {
        payloadOffset := payloadOffset + AllocSize(env, bindings[i]);
      }
      i := i + 1;
    }
  }
}
