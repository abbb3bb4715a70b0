/**
 The main results about emitted code, for every program of the fragment and every call of one
 of its functions: it never uses or releases a dead string, it leaks nothing, and it computes
 what the source program says.
 */
module Theorems {
  import opened Source
  import opened Machine
  import opened Lowering
  import opened Ownership
  import opened Legality
  import opened Matching
  import opened SimExpr
  import opened Calls
  import opened SimSteps
  import opened Simulation

  /** The machine about to run function `g` on argument objects, with no caller waiting. */
  function Start(g: nat, objs: seq<Obj>, h: Heap): State {
    Running(Entry(g, 0, objs), [], h)
  }

  /** Runs are deterministic and a halted machine stays halted. */
  lemma {:induction false} RunPast(code: Code, st: State, j: nat, k: nat)
    requires j <= k
    ensures Steps(code, st, k) == Steps(code, Steps(code, st, j), k - j)
    ensures !Steps(code, st, j).Running? ==> Steps(code, st, k) == Steps(code, st, j)
  {
    StepsAdd(code, st, j, k - j);
    if !Steps(code, st, j).Running? { StoppedStays(code, Steps(code, st, j), k - j); }
  }

  /** With fuel n the call either returns or is still running after at least n - 1 steps. */
  lemma Follow(p: Program, part: set<nat>, g: nat, objs: seq<Obj>, vs: seq<SVal>, h: Heap, ext: multiset<Obj>, exact: bool, n: nat)
    returns (k: nat, o: Obj, h': Heap)
    requires LegalPart(p, part, exact) && g in part && Enterable(p[g], objs, vs, h, ext, exact)
    ensures
      match Invoke(p, g, vs, n)
      case Timeout => k >= n - 1 && Steps(Compile(p), Start(g, objs, h), k).Running?
      case Val(v) =>
        && Steps(Compile(p), Start(g, objs, h), k) == Halted(o, h')
        && Denotes(h', o, v) && Owns(h', multiset{o} + ext, exact)
  {
    hide LegalFun, Enterable, Invoke, Owns, Denotes, Steps, Compile;
    var w := World(p, Compile(p), ext);
    k, o, h' := SimInvoke(w, g, 0, objs, vs, Start(g, objs, h), n, exact, part);
  }

  /**
   Safety over whole runs: no step of the emitted program uses or releases a string whose
   count is zero, reads a register or slot not written on the path taken, or runs off a block.
   */
  lemma NeverStuck(p: Program, part: set<nat>, g: nat, objs: seq<Obj>, vs: seq<SVal>, h: Heap, ext: multiset<Obj>, exact: bool, k: nat)
    requires LegalPart(p, part, exact) && g in part && Enterable(p[g], objs, vs, h, ext, exact)
    ensures Steps(Compile(p), Start(g, objs, h), k) != Stuck
  {
    hide LegalFun, Enterable, Invoke, Owns, Denotes, Steps, Compile;
    var st := Start(g, objs, h);
    var j, o, h' := Follow(p, part, g, objs, vs, h, ext, exact, k + 1);
    if j < k {
      RunPast(Compile(p), st, j, k);
    } else {
      RunPast(Compile(p), st, k, j);
    }
  }

  /**
   Exact balance: when a call returns, every string ever created is counted once for each
   reference held outside, and once more if it is the result. Nothing else is left.
   */
  lemma NothingLeaks(p: Program, part: set<nat>, g: nat, objs: seq<Obj>, vs: seq<SVal>, h: Heap, ext: multiset<Obj>, k: nat, o: Obj,
                     h': Heap)
    requires LegalPart(p, part, true) && g in part && Enterable(p[g], objs, vs, h, ext, true)
    requires Steps(Compile(p), Start(g, objs, h), k) == Halted(o, h')
    ensures forall q :: q in h'.cells ==> h'.cells[q].count == ext[q] + (if q == o then 1 else 0)
    ensures o == 0 || o in h'.cells
  {
    var j, o', h'' := Follow(p, part, g, objs, vs, h, ext, true, k + 2);
    hide LegalFun, Enterable, Invoke, Steps, Compile;
    HaltsOnce(Compile(p), Start(g, objs, h), k, j);
  }

  /** Two times at which a run was seen, one of them halted. */
  lemma HaltsOnce(code: Code, st: State, k: nat, j: nat)
    requires Steps(code, st, k).Halted?
    ensures j >= k ==> Steps(code, st, j) == Steps(code, st, k)
    ensures Steps(code, st, j).Halted? ==> Steps(code, st, j) == Steps(code, st, k)
  {
    if j >= k { RunPast(code, st, k, j); } else { RunPast(code, st, j, k); }
  }

  ghost predicate Yields(p: Program, g: nat, vs: seq<SVal>, v: SVal) {
    exists n: nat :: Invoke(p, g, vs, n) == Val(v)
  }

  ghost predicate HaltsWith(code: Code, st: State, v: SVal) {
    exists k: nat :: Steps(code, st, k).Halted? && Denotes(Steps(code, st, k).heap, Steps(code, st, k).o, v)
  }

  lemma DenotesOne(h: Heap, o: Obj, v: SVal, u: SVal)
    requires Denotes(h, o, v) && Denotes(h, o, u)
    ensures v == u
  {
  }

  /** Meaning is preserved, in both directions: the same results ... */
  lemma SameResults(p: Program, part: set<nat>, g: nat, objs: seq<Obj>, vs: seq<SVal>, h: Heap, ext: multiset<Obj>, exact: bool, v: SVal)
    requires LegalPart(p, part, exact) && g in part && Enterable(p[g], objs, vs, h, ext, exact)
    ensures Yields(p, g, vs, v) <==> HaltsWith(Compile(p), Start(g, objs, h), v)
  {
    hide LegalFun, Enterable, Invoke, Owns, Denotes, Steps, Compile;
    var code, st := Compile(p), Start(g, objs, h);
    if Yields(p, g, vs, v) {
      var n: nat :| Invoke(p, g, vs, n) == Val(v);
      var k, o, h' := Follow(p, part, g, objs, vs, h, ext, exact, n);
      assert Steps(code, st, k).Halted?;
    }
    if HaltsWith(code, st, v) {
      var k: nat :| Steps(code, st, k).Halted? && Denotes(Steps(code, st, k).heap, Steps(code, st, k).o, v);
      var j, o, h' := Follow(p, part, g, objs, vs, h, ext, exact, k + 1);
      HaltsOnce(code, st, k, j);
      assert Invoke(p, g, vs, k + 1).Val?;
      DenotesOne(h', o, v, Invoke(p, g, vs, k + 1).v);
    }
  }

  ghost predicate Diverges(p: Program, g: nat, vs: seq<SVal>) {
    forall n: nat :: Invoke(p, g, vs, n).Timeout?
  }

  ghost predicate RunsForever(code: Code, st: State) {
    forall k: nat :: Steps(code, st, k).Running?
  }

  /** ... and the same divergence. */
  lemma SameDivergence(p: Program, part: set<nat>, g: nat, objs: seq<Obj>, vs: seq<SVal>, h: Heap, ext: multiset<Obj>, exact: bool)
    requires LegalPart(p, part, exact) && g in part && Enterable(p[g], objs, vs, h, ext, exact)
    ensures Diverges(p, g, vs) <==> RunsForever(Compile(p), Start(g, objs, h))
  {
    hide LegalFun, Enterable, Invoke, Owns, Denotes, Steps, Compile;
    var code, st := Compile(p), Start(g, objs, h);
    if Diverges(p, g, vs) {
      forall k: nat ensures Steps(code, st, k).Running? {
        assert Invoke(p, g, vs, k + 1).Timeout?;
        var j, o, h' := Follow(p, part, g, objs, vs, h, ext, exact, k + 1);
        RunPast(code, st, k, j);
      }
    }
    if RunsForever(code, st) {
      forall n: nat ensures Invoke(p, g, vs, n).Timeout? {
        var j, o, h' := Follow(p, part, g, objs, vs, h, ext, exact, n);
        assert Steps(code, st, j).Running?;
      }
    }
  }
}
