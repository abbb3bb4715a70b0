/**
 Instantiating declared types and inferring type arguments. Mapping a declared type for an
 instance is simultaneous substitution, and matching the declared type against the result
 recovers the arguments.
 */
module GenericTypes {
  import opened TypeText

  datatype Option<T> = None | Some(value: T)

  /** The arguments given to generic parameters, by name. */
  type Assignment = map<string, Type>

  /** Simultaneous substitution. */
  function Subst(t: Type, s: Assignment): Type
    decreases t
  {
    if t.name in s then s[t.name] else Type(t.name, SubstAll(t.params, s))
  }

  function SubstAll(ts: seq<Type>, s: Assignment): (r: seq<Type>)
    ensures |r| == |ts|
    decreases ts
  {
    if ts == [] then [] else [Subst(ts[0], s)] + SubstAll(ts[1..], s)
  }

  /** Some parameter in `names` occurs where substitution looks. */
  predicate Mentions(t: Type, names: set<string>)
    decreases t
  {
    t.name in names || AnyMentions(t.params, names)
  }

  predicate AnyMentions(ts: seq<Type>, names: set<string>)
    decreases ts
  {
    ts != [] && (Mentions(ts[0], names) || AnyMentions(ts[1..], names))
  }

  lemma {:induction false} UntouchedWithout(t: Type, s: Assignment)
    requires !Mentions(t, s.Keys)
    ensures Subst(t, s) == t
    decreases t
  {
    UntouchedAll(t.params, s);
  }

  lemma {:induction false} UntouchedAll(ts: seq<Type>, s: Assignment)
    requires !AnyMentions(ts, s.Keys)
    ensures SubstAll(ts, s) == ts
    decreases ts
  {
    if ts != [] {
      UntouchedWithout(ts[0], s);
      UntouchedAll(ts[1..], s);
      assert [ts[0]] + ts[1..] == ts;
    }
  }

  /** Parameters and arguments paired up, the first parameter of a name winning. */
  function Assigned(params: seq<string>, args: seq<Type>): (s: Assignment)
    decreases |params|
  {
    if params == [] || args == [] then map[]
    else Assigned(params[1..], args[1..])[params[0] := args[0]]
  }

  lemma {:induction false} AssignedAt(params: seq<string>, args: seq<Type>, name: string, i: nat)
    requires i < |params| && i < |args| && params[i] == name && name !in params[..i]
    ensures name in Assigned(params, args) && Assigned(params, args)[name] == args[i]
    decreases |params|
  {
    if i > 0 {
      assert params[0] in params[..i];
      assert params[1..][..i - 1] == params[..i][1..];
      AssignedAt(params[1..], args[1..], name, i - 1);
    }
  }

  lemma {:induction false} NotAssigned(params: seq<string>, args: seq<Type>, name: string)
    requires forall i :: 0 <= i < |params| && i < |args| ==> params[i] != name
    ensures name !in Assigned(params, args)
    decreases |params|
  {
    if params != [] && args != [] { NotAssigned(params[1..], args[1..], name); }
  }

  lemma {:induction false} SubstAt(ts: seq<Type>, s: Assignment, i: nat)
    requires i < |ts|
    ensures SubstAll(ts, s)[i] == Subst(ts[i], s)
    decreases |ts|
  {
    if i > 0 { SubstAt(ts[1..], s, i - 1); }
  }

  lemma {:induction false} MentionsPrefix(ts: seq<Type>, names: set<string>, i: nat)
    requires i < |ts|
    ensures AnyMentions(ts[..i + 1], names) == (AnyMentions(ts[..i], names) || Mentions(ts[i], names))
    decreases i
  {
    if i == 0 {
      assert ts[..1] == [ts[0]];
    } else {
      assert ts[..i + 1][1..] == ts[1..][..i] && ts[..i][1..] == ts[1..][..i - 1];
      MentionsPrefix(ts[1..], names, i - 1);
    }
  }

  /** The mapped type, or null exactly when no parameter occurs in it. */
  method MapTypeForInstance(declared: Type, params: seq<string>, args: seq<Type>) returns (r: Option<Type>)
    ensures
      var s := Assigned(params, args);
      r == if Mentions(declared, s.Keys) then Some(Subst(declared, s)) else None
    decreases declared
  {
    ghost var s := Assigned(params, args);
    var i := 0;
    while i < |params| && i < |args|
      invariant i <= |params| && i <= |args| && declared.name !in params[..i]
    {
      if params[i] == declared.name {
        AssignedAt(params, args, declared.name, i);
        return Some(args[i]);
      }
      i := i + 1;
    }
    NotAssigned(params, args, declared.name);
    var mappedAny, mapped, p := false, [], 0;
    while p < |declared.params|
      invariant p <= |declared.params| && |mapped| == p
      invariant mappedAny == AnyMentions(declared.params[..p], s.Keys)
      invariant mapped == SubstAll(declared.params, s)[..p]
    {
      var sub := MapTypeForInstance(declared.params[p], params, args);
      MentionsPrefix(declared.params, s.Keys, p);
      SubstAt(declared.params, s, p);
      if sub.Some? {
        mappedAny := true;
        mapped := mapped + [sub.value];
      } else {
        UntouchedWithout(declared.params[p], s);
        mapped := mapped + [declared.params[p]];
      }
      p := p + 1;
    }
    assert declared.params[..p] == declared.params && SubstAll(declared.params, s)[..p] == SubstAll(declared.params, s);
    r := if mappedAny then Some(Type(declared.name, mapped)) else None;
  }

  // ---- Matching ----

  /** Matching a declared type against an actual one, keeping the first binding of `name`. */
  function Unify(name: string, declared: Type, actual: Type, binding: Option<Type>): Option<Type>
    decreases declared, 1
  {
    if binding.Some? then binding
    else if declared.name == name then Some(actual)
    else if declared.name == actual.name then UnifyAll(name, declared.params, actual.params, None)
    else None
  }

  function UnifyAll(name: string, ds: seq<Type>, acts: seq<Type>, binding: Option<Type>): Option<Type>
    decreases ds, 0
  {
    if ds == [] || acts == [] then binding
    else UnifyAll(name, ds[1..], acts[1..], Unify(name, ds[0], acts[0], binding))
  }

  /** At `path` the declared type has the parameter, and up to there the two types have the same names. */
  predicate Binds(name: string, declared: Type, actual: Type, path: seq<nat>)
    decreases |path|
  {
    if path == [] then declared.name == name
    else
      && declared.name != name && declared.name == actual.name
      && path[0] < |declared.params| && path[0] < |actual.params|
      && Binds(name, declared.params[path[0]], actual.params[path[0]], path[1..])
  }

  function Below(t: Type, path: seq<nat>): Option<Type>
    decreases |path|
  {
    if path == [] then Some(t) else if path[0] < |t.params| then Below(t.params[path[0]], path[1..]) else None
  }

  /** `p` is further left than `q`. */
  predicate LeftOf(p: seq<nat>, q: seq<nat>)
    decreases |p|
  {
    p != [] && q != [] && (p[0] < q[0] || (p[0] == q[0] && LeftOf(p[1..], q[1..])))
  }

  lemma {:induction false} FirstUnified(name: string, ds: seq<Type>, acts: seq<Type>) returns (i: nat)
    ensures i <= |ds| && i <= |acts| && forall j :: 0 <= j < i ==> Unify(name, ds[j], acts[j], None) == None
    ensures UnifyAll(name, ds, acts, None)
         == if i < |ds| && i < |acts| then Unify(name, ds[i], acts[i], None) else None
    ensures i < |ds| && i < |acts| ==> Unify(name, ds[i], acts[i], None).Some?
    decreases |ds|
  {
    i := 0;
    if ds != [] && acts != [] {
      var first := Unify(name, ds[0], acts[0], None);
      if first.Some? {
        BoundStays(name, ds[1..], acts[1..], first);
      } else {
        var k := FirstUnified(name, ds[1..], acts[1..]);
        i := k + 1;
        forall j | 0 <= j < i ensures Unify(name, ds[j], acts[j], None) == None {
          if j > 0 { assert ds[j] == ds[1..][j - 1] && acts[j] == acts[1..][j - 1]; }
        }
      }
    }
  }

  /**
   What matching binds is the type at the leftmost place where the parameter stands under equal
   names, and nothing if there is no such place; below different names it does not look.
   */
  lemma {:induction false} UnifyIsLeftmost(name: string, declared: Type, actual: Type) returns (path: seq<nat>)
    ensures
      match Unify(name, declared, actual, None)
      case None => forall p :: !Binds(name, declared, actual, p)
      case Some(t) =>
        && Binds(name, declared, actual, path) && Below(actual, path) == Some(t)
        && forall p :: Binds(name, declared, actual, p) ==> p == path || LeftOf(path, p)
    decreases declared
  {
    path := [];
    if declared.name != name && declared.name == actual.name {
      var ds, acts := declared.params, actual.params;
      var i := FirstUnified(name, ds, acts);
      forall j | 0 <= j < i ensures forall p :: !Binds(name, ds[j], acts[j], p) {
        var none := UnifyIsLeftmost(name, ds[j], acts[j]);
      }
      if i < |ds| && i < |acts| {
        var rest := UnifyIsLeftmost(name, ds[i], acts[i]);
        path := [i] + rest;
        assert path[1..] == rest;
        forall p | Binds(name, declared, actual, p) ensures p == path || LeftOf(path, p) {
          assert p != [] && p[0] < |ds| && p[0] < |acts| && Binds(name, ds[p[0]], acts[p[0]], p[1..]);
          if p[0] == i {
            assert p == [i] + p[1..];
            assert p[1..] == rest || LeftOf(rest, p[1..]);
          } else if p[0] < i {
            assert false;
          }
        }
      }
    }
  }

  method UnifyTypeParam(name: string, declared: Type, actual: Type, binding: Option<Type>) returns (r: Option<Type>)
    ensures r == Unify(name, declared, actual, binding)
    decreases declared
  {
    if binding.Some? { return binding; }
    if declared.name == name { return Some(actual); }
    r := None;
    if declared.name == actual.name {
      var n := if |declared.params| < |actual.params| then |declared.params| else |actual.params|;
      var i := 0;
      while i < n
        invariant i <= n
        invariant UnifyAll(name, declared.params[i..], actual.params[i..], r)
               == UnifyAll(name, declared.params, actual.params, None)
      {
        assert declared.params[i..][1..] == declared.params[i + 1..] && actual.params[i..][1..] == actual.params[i + 1..];
        r := UnifyTypeParam(name, declared.params[i], actual.params[i], r);
        i := i + 1;
      }
    }
  }

  /** Generic parameters are not applied to arguments themselves. */
  predicate Plain(t: Type, names: set<string>)
    decreases t
  {
    (t.name in names ==> t.params == []) && AllPlain(t.params, names)
  }

  predicate AllPlain(ts: seq<Type>, names: set<string>)
    decreases ts
  {
    ts != [] ==> Plain(ts[0], names) && AllPlain(ts[1..], names)
  }

  /** Matching recovers exactly the assigned argument, wherever the parameter occurs. */
  lemma {:induction false} MatchInverts(name: string, t: Type, s: Assignment)
    requires name in s && Plain(t, s.Keys)
    ensures Unify(name, t, Subst(t, s), None) == if Mentions(t, {name}) then Some(s[name]) else None
    decreases t, 1
  {
    if t.name !in s {
      MatchAllInverts(name, t.params, s);
    }
  }

  lemma {:induction false} MatchAllInverts(name: string, ts: seq<Type>, s: Assignment)
    requires name in s && AllPlain(ts, s.Keys)
    ensures UnifyAll(name, ts, SubstAll(ts, s), None) == if AnyMentions(ts, {name}) then Some(s[name]) else None
    decreases ts, 0
  {
    if ts != [] {
      MatchInverts(name, ts[0], s);
      MatchAllInverts(name, ts[1..], s);
      assert SubstAll(ts, s)[1..] == SubstAll(ts[1..], s);
      if Mentions(ts[0], {name}) { BoundStays(name, ts[1..], SubstAll(ts[1..], s), Some(s[name])); }
    }
  }

  lemma {:induction false} BoundStays(name: string, ds: seq<Type>, acts: seq<Type>, b: Option<Type>)
    requires b.Some?
    ensures UnifyAll(name, ds, acts, b) == b
    decreases |ds|
  {
    if ds != [] && acts != [] { BoundStays(name, ds[1..], acts[1..], b); }
  }

  // ---- Inferring the type arguments of a call ----

  /** The call's argument types are those of the parameters under `s`, which resolves every generic. */
  ghost predicate Inferable(generics: seq<string>, declared: seq<Type>, actuals: seq<Type>, s: Assignment) {
    && |actuals| == |declared|
    && (forall g :: g in generics <==> g in s)
    && (forall g :: g in generics ==> s[g].name !in generics)
    && (forall a :: 0 <= a < |declared| ==> Plain(declared[a], s.Keys) && actuals[a] == Subst(declared[a], s))
    && (forall g :: g in generics ==> exists a :: 0 <= a < |declared| && Mentions(declared[a], {g}))
  }

  /** None of the first n arguments binds the parameter to a type other than a generic parameter. */
  predicate Undecided(generics: seq<string>, declared: seq<Type>, actuals: seq<Type>, name: string, n: nat) {
    forall a :: 0 <= a < n && a < |declared| && a < |actuals| ==>
      var b := Unify(name, declared[a], actuals[a], None);
      b.None? || b.value.name in generics
  }

  /** The first argument that does gives this type. */
  ghost predicate Decides(generics: seq<string>, declared: seq<Type>, actuals: seq<Type>, name: string, t: Type) {
    t.name !in generics && exists a ::
      && 0 <= a < |declared| && a < |actuals| && Unify(name, declared[a], actuals[a], None) == Some(t)
      && Undecided(generics, declared, actuals, name, a)
  }

  /** The first argument that binds each generic parameter to something resolved decides. */
  method InferCallTypeArgs(generics: seq<string>, declared: seq<Type>, actuals: seq<Type>, ghost s: Assignment)
    returns (r: Option<seq<Type>>)
    ensures Inferable(generics, declared, actuals, s) ==>
      r.Some? && |r.value| == |generics| && forall g :: 0 <= g < |generics| ==> r.value[g] == s[generics[g]]
    ensures r.Some? ==> |r.value| == |generics|
    ensures r.Some? ==> forall g :: 0 <= g < |generics| ==> Decides(generics, declared, actuals, generics[g], r.value[g])
    ensures r.None? ==> exists g :: 0 <= g < |generics| && Undecided(generics, declared, actuals, generics[g], |declared|)
  {
    hide Unify, Subst, Mentions, Plain, Undecided, Decides, Inferable;
    ghost var inferable := Inferable(generics, declared, actuals, s);
    var bindings := [];
    while |bindings| < |generics|
      invariant |bindings| <= |generics|
      invariant forall g :: 0 <= g < |bindings| ==> Decides(generics, declared, actuals, generics[g], bindings[g])
      invariant inferable ==> forall g :: 0 <= g < |bindings| ==> generics[g] in s && bindings[g] == s[generics[g]]
    {
      var name := generics[|bindings|];
      var binding, a := None, 0;
      NothingTried(generics, declared, actuals, name);
      if inferable { Mentioned(generics, declared, actuals, s, name); }
      while a < |declared| && a < |actuals| && binding.None?
        invariant a <= |declared| && a <= |actuals|
        invariant if binding.None? then Undecided(generics, declared, actuals, name, a)
                  else Decides(generics, declared, actuals, name, binding.value)
        invariant inferable ==> name in s && (binding == None || binding == Some(s[name]))
        invariant inferable && binding.None? ==> forall b :: 0 <= b < a ==> !Mentions(declared[b], {name})
        decreases |declared| - a
      {
        binding := UnifyTypeParam(name, declared[a], actuals[a], None);
        OneTried(generics, declared, actuals, name, a);
        if inferable { Inferred(generics, declared, actuals, s, name, a); }
        if binding.Some? && binding.value.name in generics { binding := None; }
        a := a + 1;
      }
      if binding.None? {
        AllTried(generics, declared, actuals, name, a);
        return None;
      }
      bindings := bindings + [binding.value];
    }
    r := Some(bindings);
  }

  lemma NothingTried(generics: seq<string>, declared: seq<Type>, actuals: seq<Type>, name: string)
    ensures Undecided(generics, declared, actuals, name, 0)
  {
  }

  lemma OneTried(generics: seq<string>, declared: seq<Type>, actuals: seq<Type>, name: string, a: nat)
    requires a < |declared| && a < |actuals| && Undecided(generics, declared, actuals, name, a)
    ensures
      var b := Unify(name, declared[a], actuals[a], None);
      if b.None? || b.value.name in generics then Undecided(generics, declared, actuals, name, a + 1)
      else Decides(generics, declared, actuals, name, b.value)
  {
    hide Unify;
  }

  lemma AllTried(generics: seq<string>, declared: seq<Type>, actuals: seq<Type>, name: string, a: nat)
    requires a >= |declared| || a >= |actuals|
    ensures Undecided(generics, declared, actuals, name, a) ==> Undecided(generics, declared, actuals, name, |declared|)
  {
    hide Unify;
  }

  lemma Inferred(generics: seq<string>, declared: seq<Type>, actuals: seq<Type>, s: Assignment, name: string, a: nat)
    requires Inferable(generics, declared, actuals, s) && name in generics && a < |declared|
    ensures name in s && a < |actuals| && s[name].name !in generics
    ensures Unify(name, declared[a], actuals[a], None) == if Mentions(declared[a], {name}) then Some(s[name]) else None
  {
    hide Unify, Subst, Mentions, Plain;
    MatchInverts(name, declared[a], s);
  }

  lemma Mentioned(generics: seq<string>, declared: seq<Type>, actuals: seq<Type>, s: Assignment, name: string)
    requires Inferable(generics, declared, actuals, s) && name in generics
    ensures name in s && |actuals| == |declared| && exists a :: 0 <= a < |declared| && Mentions(declared[a], {name})
  {
    hide Subst, Mentions, Plain;
  }
}
