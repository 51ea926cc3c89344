/** The planner's worklist: which packages a change compiles, and why. */
module CiClosure {
  import opened Basics

  type Pkg = string
  type Path = string

  /** Why a package was selected; each one is a line of the plan. */
  datatype Reason =
    | Changed(path: Path)
    | SmokeInput(path: Path)
    | Embeds(path: Path)
    | DependsOn(pkg: Pkg)

  /** Sorted consumer lists per package; a package without an entry has none. */
  type Edges = map<Pkg, seq<Pkg>>

  type Seed = (Pkg, Reason)

  function Consumers(edges: Edges, p: Pkg): seq<Pkg> {
    if p in edges then edges[p] else []
  }

  predicate WithinWorkspace(edges: Edges, seeds: seq<Seed>, names: set<Pkg>) {
    && (forall i :: 0 <= i < |seeds| ==> seeds[i].0 in names)
    && (forall p, q :: p in edges && q in edges[p] ==> q in names)
  }

  // ---- the specification ----

  predicate HasSeed(seeds: seq<Seed>, p: Pkg) {
    exists i :: 0 <= i < |seeds| && seeds[i].0 == p
  }

  ghost predicate Closed(edges: Edges, seeds: seq<Seed>, c: set<Pkg>) {
    && (forall i :: 0 <= i < |seeds| ==> seeds[i].0 in c)
    && (forall p, q :: p in c && q in Consumers(edges, p) ==> q in c)
  }

  /** The least set that holds the seeds and is closed under compile consumers. */
  ghost predicate IsClosure(edges: Edges, seeds: seq<Seed>, c: set<Pkg>) {
    Closed(edges, seeds, c) && forall d :: Closed(edges, seeds, d) ==> c <= d
  }

  /** A reason that the change itself, or a selected dependency, gives for `p`. */
  predicate Justified(edges: Edges, seeds: seq<Seed>, c: set<Pkg>, p: Pkg, r: Reason) {
    || (p, r) in seeds
    || (r.DependsOn? && r.pkg in c && p in Consumers(edges, r.pkg))
  }

  /** The first reason of `order[i]` is a seed's, or names an earlier package. */
  ghost predicate Grounded(seeds: seq<Seed>, sel: map<Pkg, seq<Reason>>, order: seq<Pkg>) {
    forall i :: 0 <= i < |order| ==>
      && order[i] in sel && sel[order[i]] != []
      && var r := sel[order[i]][0];
         (order[i], r) in seeds || (r.DependsOn? && r.pkg in order[..i])
  }

  /** Following first reasons from `p` reaches a seed within `n` steps. */
  ghost predicate ChainEnds(seeds: seq<Seed>, sel: map<Pkg, seq<Reason>>, p: Pkg, n: nat)
    decreases n
  {
    && p in sel && sel[p] != []
    && var r := sel[p][0];
       (p, r) in seeds || (r.DependsOn? && n > 0 && ChainEnds(seeds, sel, r.pkg, n - 1))
  }

  // ---- the worklist ----

  function AddWhy(whys: seq<Reason>, r: Reason): seq<Reason> {
    if r in whys then whys else whys + [r]
  }

  /** What holds between two pops. */
  ghost predicate Invariant(edges: Edges, seeds: seq<Seed>, stack: seq<Seed>, sel: map<Pkg, seq<Reason>>, order: seq<Pkg>)
  {
    && sel.Keys == (set p | p in order)
    && (forall i, j :: 0 <= i < j < |order| ==> order[i] != order[j])
    && Grounded(seeds, sel, order)
    && (forall i :: 0 <= i < |stack| ==> Justified(edges, seeds, sel.Keys, stack[i].0, stack[i].1))
    && (forall p, r :: p in sel && r in sel[p] ==> Justified(edges, seeds, sel.Keys, p, r))
    && (forall p, r :: Justified(edges, seeds, sel.Keys, p, r) ==> (p in sel && r in sel[p]) || (p, r) in stack)
  }

  function Pushed(name: Pkg, consumers: seq<Pkg>): seq<Seed> {
    seq(|consumers|, i requires 0 <= i < |consumers| => (consumers[i], DependsOn(name)))
  }

  /** Popping a package that is already compiled only adds a reason. */
  lemma PopKnown(edges: Edges, seeds: seq<Seed>, stack: seq<Seed>, sel: map<Pkg, seq<Reason>>, order: seq<Pkg>)
    requires Invariant(edges, seeds, stack, sel, order) && stack != [] && stack[|stack| - 1].0 in sel
    ensures var (name, why) := stack[|stack| - 1];
            Invariant(edges, seeds, stack[..|stack| - 1], sel[name := AddWhy(sel[name], why)], order)
  {
    var n := |stack| - 1;
    var (name, why) := stack[n];
    var sel' := sel[name := AddWhy(sel[name], why)];
    assert stack == stack[..n] + [stack[n]];
    assert sel'.Keys == sel.Keys;
    KnownGrounded(seeds, sel, order, name, why);
    forall p, r | Justified(edges, seeds, sel'.Keys, p, r)
      ensures (p in sel' && r in sel'[p]) || (p, r) in stack[..n]
    {
      assert Justified(edges, seeds, sel.Keys, p, r);
    }
  }

  lemma KnownGrounded(seeds: seq<Seed>, sel: map<Pkg, seq<Reason>>, order: seq<Pkg>, name: Pkg, why: Reason)
    requires Grounded(seeds, sel, order) && name in sel && (name in order ==> sel[name] != [])
    ensures Grounded(seeds, sel[name := AddWhy(sel[name], why)], order)
  {}

  /** Popping a package for the first time compiles it and pushes its consumers. */
  lemma PopNew(edges: Edges, seeds: seq<Seed>, stack: seq<Seed>, sel: map<Pkg, seq<Reason>>, order: seq<Pkg>)
    requires Invariant(edges, seeds, stack, sel, order) && stack != [] && stack[|stack| - 1].0 !in sel
    ensures var (name, why) := stack[|stack| - 1];
            Invariant(edges, seeds, stack[..|stack| - 1] + Pushed(name, Consumers(edges, name)),
                      sel[name := [why]], order + [name])
  {
    var n := |stack| - 1;
    var (name, why) := stack[n];
    var sel', order' := sel[name := [why]], order + [name];
    var stack' := stack[..n] + Pushed(name, Consumers(edges, name));
    assert stack == stack[..n] + [stack[n]];
    assert sel'.Keys == sel.Keys + {name};
    NewJustified(edges, seeds, sel.Keys, name);
    NewGrounded(edges, seeds, stack, sel, order);
    forall p, r | Justified(edges, seeds, sel'.Keys, p, r)
      ensures (p in sel' && r in sel'[p]) || (p, r) in stack'
    {
      if !Justified(edges, seeds, sel.Keys, p, r) {
        var i :| 0 <= i < |Consumers(edges, name)| && Consumers(edges, name)[i] == p;
        assert stack'[n + i] == (p, r);
      } else if (p, r) in stack[..n] {
        assert (p, r) in stack';
      }
    }
    forall i | 0 <= i < |stack'|
      ensures Justified(edges, seeds, sel'.Keys, stack'[i].0, stack'[i].1)
    {
      if i < n {
        assert stack'[i] == stack[i];
      }
    }
  }

  /** Compiling one more package adds exactly the reasons it gives its consumers. */
  lemma NewJustified(edges: Edges, seeds: seq<Seed>, c: set<Pkg>, name: Pkg)
    ensures forall p, r :: Justified(edges, seeds, c + {name}, p, r) <==>
              Justified(edges, seeds, c, p, r) || (r == DependsOn(name) && p in Consumers(edges, name))
  {}

  lemma NewGrounded(edges: Edges, seeds: seq<Seed>, stack: seq<Seed>, sel: map<Pkg, seq<Reason>>, order: seq<Pkg>)
    requires Invariant(edges, seeds, stack, sel, order) && stack != [] && stack[|stack| - 1].0 !in sel
    ensures var (name, why) := stack[|stack| - 1];
            Grounded(seeds, sel[name := [why]], order + [name])
  {
    var (name, why) := stack[|stack| - 1];
    var order' := order + [name];
    forall i | 0 <= i < |order|
      ensures order'[..i] == order[..i] && order'[i] == order[i] && order[i] in sel
    {
      assert order[i] in order;
    }
    assert order'[..|order|] == order;
    assert Justified(edges, seeds, sel.Keys, name, why);
  }

  method Close(edges: Edges, seeds: seq<Seed>, ghost names: set<Pkg>)
      returns (sel: map<Pkg, seq<Reason>>, compiled: set<Pkg>, order: seq<Pkg>)
    requires WithinWorkspace(edges, seeds, names)
    ensures compiled == sel.Keys && IsClosure(edges, seeds, compiled)
    ensures forall p, r :: p in compiled ==> (r in sel[p] <==> Justified(edges, seeds, compiled, p, r))
    ensures Grounded(seeds, sel, order) && (forall p :: p in compiled <==> p in order)
    ensures compiled <= names
  {
    var stack := seeds;
    sel, compiled, order := map[], {}, [];
    while stack != []
      invariant compiled == sel.Keys && compiled <= names
      invariant WithinWorkspace(edges, stack, names)
      invariant Invariant(edges, seeds, stack, sel, order)
      decreases names - compiled, |stack|
    {
      var (name, why) := stack[|stack| - 1];
      if name in compiled {
        PopKnown(edges, seeds, stack, sel, order);
        sel := sel[name := AddWhy(sel[name], why)];
        stack := stack[..|stack| - 1];
      } else {
        PopNew(edges, seeds, stack, sel, order);
        sel := sel[name := [why]];
        compiled := compiled + {name};
        order := order + [name];
        stack := stack[..|stack| - 1] + Pushed(name, Consumers(edges, name));
      }
    }
    EmptyStackIsClosure(edges, seeds, sel, order);
  }

  lemma EmptyStackIsClosure(edges: Edges, seeds: seq<Seed>, sel: map<Pkg, seq<Reason>>, order: seq<Pkg>)
    requires Invariant(edges, seeds, [], sel, order)
    ensures IsClosure(edges, seeds, sel.Keys)
  {
    forall i | 0 <= i < |seeds| ensures seeds[i].0 in sel {
      assert Justified(edges, seeds, sel.Keys, seeds[i].0, seeds[i].1) by { assert seeds[i] in seeds; }
    }
    forall p, q | p in sel && q in Consumers(edges, p) ensures q in sel {
      assert Justified(edges, seeds, sel.Keys, q, DependsOn(p));
    }
    forall d | Closed(edges, seeds, d) ensures sel.Keys <= d {
      OrderWithin(edges, seeds, sel, order, d, |order|);
    }
  }

  /** Every compiled package lies in every closed set, by its first reason. */
  lemma {:induction false} OrderWithin(edges: Edges, seeds: seq<Seed>, sel: map<Pkg, seq<Reason>>, order: seq<Pkg>, d: set<Pkg>, n: nat)
    requires Invariant(edges, seeds, [], sel, order) && Closed(edges, seeds, d) && n <= |order|
    ensures forall i :: 0 <= i < n ==> order[i] in d
  {
    if n > 0 {
      OrderWithin(edges, seeds, sel, order, d, n - 1);
      var p := order[n - 1];
      var r := sel[p][0];
      assert p in order && r in sel[p];
      assert Justified(edges, seeds, sel.Keys, p, r);
      if (p, r) in seeds {
        var i :| 0 <= i < |seeds| && seeds[i] == (p, r);
      } else {
        var i :| 0 <= i < n - 1 && order[..n - 1][i] == r.pkg;
        assert order[i] == r.pkg;
      }
    }
  }

  // ---- consequences ----

  /** Every explanation chain ends at a seed, after at most as many steps as packages. */
  lemma {:induction false} ExplanationsEnd(seeds: seq<Seed>, sel: map<Pkg, seq<Reason>>, order: seq<Pkg>, i: nat)
    requires Grounded(seeds, sel, order) && i < |order|
    ensures ChainEnds(seeds, sel, order[i], i)
  {
    var r := sel[order[i]][0];
    if (order[i], r) !in seeds {
      var j :| 0 <= j < i && order[..i][j] == r.pkg;
      assert order[j] == r.pkg;
      ExplanationsEnd(seeds, sel, order, j);
      ChainLonger(seeds, sel, r.pkg, j, i - 1);
    }
  }

  lemma {:induction false} ChainLonger(seeds: seq<Seed>, sel: map<Pkg, seq<Reason>>, p: Pkg, n: nat, m: nat)
    requires ChainEnds(seeds, sel, p, n) && n <= m
    ensures ChainEnds(seeds, sel, p, m)
    decreases n
  {
    if (p, sel[p][0]) !in seeds {
      ChainLonger(seeds, sel, sel[p][0].pkg, n - 1, m - 1);
    }
  }

  lemma ClosureIsUnique(edges: Edges, seeds: seq<Seed>, c: set<Pkg>, d: set<Pkg>)
    requires IsClosure(edges, seeds, c) && IsClosure(edges, seeds, d)
    ensures c == d
  {}

  /** More seeds compile more packages. */
  lemma ClosureIsMonotone(edges: Edges, seeds: seq<Seed>, more: seq<Seed>, c: set<Pkg>, d: set<Pkg>)
    requires IsClosure(edges, seeds, c) && IsClosure(edges, more, d)
    requires forall p :: HasSeed(seeds, p) ==> HasSeed(more, p)
    ensures c <= d
  {
    forall i | 0 <= i < |seeds| ensures seeds[i].0 in d {
      assert HasSeed(seeds, seeds[i].0);
      var j :| 0 <= j < |more| && more[j].0 == seeds[i].0;
    }
    assert Closed(edges, seeds, d);
  }
}
