/** Which packages and checks a change set selects, said of the changed paths, the
    workspace graph and the declared relations alone. */
module CiSelect {
  import opened Basics
  import opened CiClosure
  import opened CiPlan
  import opened CiChecks
  import Keys

  /** All that planning reads besides the changed paths. */
  datatype Repo = Repo(index: Index, rel: Relations, guests: map<string, Guest>, glob: Glob)

  function EnvFor(w: Repo): Env {
    EnvOf(w.index, w.rel, w.guests, w.glob)
  }

  /** Validated relations over real Cargo metadata. */
  ghost predicate RepoOk(w: Repo) {
    && Validated(w.rel, w.index)
    && EdgesOk(w.index.compile, w.index.info.Keys) && EdgesOk(w.index.dev, w.index.info.Keys)
    && (forall path :: w.index.owner(path).Some? ==> w.index.owner(path).value in w.index.info)
  }

  // ---- what a path is ----

  predicate FixtureAt(w: Repo, path: Path, i: nat) {
    i < |w.rel.fixtures| && AnyGlob(w.glob, path, w.rel.fixtures[i].patterns)
  }

  predicate Fixtured(w: Repo, path: Path) {
    exists i :: 0 <= i < |w.rel.fixtures| && FixtureAt(w, path, i)
  }

  /** The first fixture that matches the path names the check. */
  predicate FixtureAsks(w: Repo, path: Path, k: Check) {
    exists i :: 0 <= i < |w.rel.fixtures| && FixtureAt(w, path, i) && k in w.rel.fixtures[i].checks
      && forall j :: 0 <= j < i ==> !FixtureAt(w, path, j)
  }

  predicate OwnedBy(w: Repo, path: Path, p: Pkg) {
    !Fixtured(w, path) && w.index.owner(path) == Some(p)
  }

  /** A source of package `p`: owned, and not an input of a test-only target. */
  predicate SourceOf(w: Repo, path: Path, p: Pkg) {
    OwnedBy(w, path, p) && w.index.inputKind(path, p) == None
  }

  predicate SmokeOnly(w: Repo, path: Path) {
    AnyGlob(w.glob, path, w.rel.gatewayPaths)
  }

  predicate EmbeddedIn(w: Repo, path: Path, p: Pkg) {
    exists e :: e in w.rel.embeds && path in e.paths && e.package == p
  }

  predicate DeclaredFor(w: Repo, path: Path, p: Pkg) {
    exists ti :: ti in w.rel.testInputs && AnyGlob(w.glob, path, ti.patterns) && ti.package == p
  }

  /** An input of a test-only target of `p`. */
  predicate Feeds(w: Repo, path: Path, p: Pkg, kind: Kind) {
    || (OwnedBy(w, path, p) && w.index.inputKind(path, p) == Some(kind))
    || (kind == DeclaredKind && DeclaredFor(w, path, p))
  }

  /** A file of a guest that no package owns. */
  predicate GuestFile(w: Repo, path: Path, id: string) {
    id in w.guests && w.index.owner(path) == None && "examples/plugins-" <= path && w.guests[id].relDir == GuestDir(path)
  }

  predicate WorkerdEmbed(w: Repo, path: Path) {
    exists e :: e in w.rel.embeds && path in e.paths && e.workerdE2e
  }

  /** Nobody knows what the path is for. */
  ghost predicate Unclassified(w: Repo, path: Path) {
    && !Fixtured(w, path) && w.index.owner(path) == None
    && (forall e :: e in w.rel.embeds ==> path !in e.paths)
    && (forall ti :: ti in w.rel.testInputs ==> !AnyGlob(w.glob, path, ti.patterns))
    && !("ui/" <= path) && !("packages/plugin-sdk/" <= path) && !("packages/plugin-sdk-python/" <= path) && !("docs/" <= path)
    && path !in ABI_SYNC_PATHS && !(exists id :: GuestFile(w, path, id))
  }

  /** A path that escalates to the full suite. */
  ghost predicate Global(w: Repo, path: Path) {
    || path in FULL_SUITE_PATHS || AnyPrefix(path, FULL_SUITE_PREFIXES)
    || Keys.Split(path, c => c == '/')[0] !in KNOWN_TOP_LEVEL
    || (EndsWith(path, "Cargo.toml") && w.index.owner(path) == None)
    || Unclassified(w, path)
  }

  // ---- the classification of one path ----

  lemma {:induction false} FixtureForExactly(glob: Glob, path: Path, fixtures: seq<Fixture>)
    ensures match FixtureFor(glob, path, fixtures)
            case None => forall i :: 0 <= i < |fixtures| ==> !AnyGlob(glob, path, fixtures[i].patterns)
            case Some(f) => exists i :: 0 <= i < |fixtures| && fixtures[i] == f && AnyGlob(glob, path, fixtures[i].patterns)
                              && forall j :: 0 <= j < i ==> !AnyGlob(glob, path, fixtures[j].patterns)
  {
    if fixtures != [] && !AnyGlob(glob, path, fixtures[0].patterns) {
      FixtureForExactly(glob, path, fixtures[1..]);
      assert forall i :: 0 < i < |fixtures| ==> fixtures[i] == fixtures[1..][i - 1];
      if FixtureFor(glob, path, fixtures).Some? {
        var i :| 0 <= i < |fixtures[1..]| && fixtures[1..][i] == FixtureFor(glob, path, fixtures).value
                 && AnyGlob(glob, path, fixtures[1..][i].patterns)
                 && forall j :: 0 <= j < i ==> !AnyGlob(glob, path, fixtures[1..][j].patterns);
        assert fixtures[i + 1] == fixtures[1..][i];
      }
    }
  }

  lemma FixtureOfPath(w: Repo, path: Path, k: Check)
    ensures FixtureFor(w.glob, path, w.rel.fixtures).Some? <==> Fixtured(w, path)
    ensures FixtureFor(w.glob, path, w.rel.fixtures).Some? ==>
              (k in FixtureFor(w.glob, path, w.rel.fixtures).value.checks <==> FixtureAsks(w, path, k))
    ensures FixtureFor(w.glob, path, w.rel.fixtures).None? ==> !FixtureAsks(w, path, k)
  {
    FixtureForExactly(w.glob, path, w.rel.fixtures);
    var r := FixtureFor(w.glob, path, w.rel.fixtures);
    if r.Some? {
      var i :| 0 <= i < |w.rel.fixtures| && w.rel.fixtures[i] == r.value && AnyGlob(w.glob, path, w.rel.fixtures[i].patterns)
               && forall j :: 0 <= j < i ==> !AnyGlob(w.glob, path, w.rel.fixtures[j].patterns);
      assert FixtureAt(w, path, i);
      if FixtureAsks(w, path, k) {
        var n :| 0 <= n < |w.rel.fixtures| && FixtureAt(w, path, n) && k in w.rel.fixtures[n].checks
                 && forall j :: 0 <= j < n ==> !FixtureAt(w, path, j);
        assert n == i;
      }
    }
  }

  lemma {:induction false} EmbedSeedsExactly(path: Path, embeds: seq<Embed>, s: Seed)
    ensures s in EmbedSeeds(path, embeds) <==>
              s.1 == Embeds(path) && exists e :: e in embeds && path in e.paths && e.package == s.0
  {
    if embeds != [] {
      EmbedSeedsExactly(path, embeds[1..], s);
      assert embeds == [embeds[0]] + embeds[1..];
    }
  }

  lemma {:induction false} DeclaredInputsExactly(glob: Glob, path: Path, inputs: seq<TestInput>, x: (Pkg, Kind))
    ensures x in DeclaredInputs(glob, path, inputs) <==>
              x.1 == DeclaredKind && exists ti :: ti in inputs && AnyGlob(glob, path, ti.patterns) && ti.package == x.0
  {
    if inputs != [] {
      DeclaredInputsExactly(glob, path, inputs[1..], x);
      assert inputs == [inputs[0]] + inputs[1..];
    }
  }

  lemma {:induction false} NoEmbedSeeds(path: Path, embeds: seq<Embed>)
    ensures EmbedSeeds(path, embeds) == [] <==> forall e :: e in embeds ==> path !in e.paths
  {
    if embeds != [] {
      NoEmbedSeeds(path, embeds[1..]);
      assert embeds == [embeds[0]] + embeds[1..];
    }
  }

  lemma {:induction false} NoDeclaredInputs(glob: Glob, path: Path, inputs: seq<TestInput>)
    ensures DeclaredInputs(glob, path, inputs) == [] <==> forall ti :: ti in inputs ==> !AnyGlob(glob, path, ti.patterns)
  {
    if inputs != [] {
      NoDeclaredInputs(glob, path, inputs[1..]);
      assert inputs == [inputs[0]] + inputs[1..];
    }
  }

  function Touched(w: Repo, path: Path): Touch {
    TouchOf(w.index, w.rel, w.guests, w.glob, path)
  }

  /** The planner escalates on exactly the global paths. */
  lemma FullExactly(w: Repo, path: Path)
    ensures Touched(w, path).full <==> Global(w, path)
  {
    FixtureOfPath(w, path, Fmt);
    NoEmbedSeeds(path, w.rel.embeds);
    NoDeclaredInputs(w.glob, path, w.rel.testInputs);
    var ids := set id | id in w.guests && (w.index.owner(path).None? && "examples/plugins-" <= path) && w.guests[id].relDir == GuestDir(path);
    assert ids == {} <==> !exists id :: GuestFile(w, path, id) by {
      if id :| GuestFile(w, path, id) { assert id in ids; }
      if id :| id in ids { assert GuestFile(w, path, id); }
    }
  }

  /** The path gives this reason to compile the package. */
  predicate SeedOf(w: Repo, path: Path, s: Seed) {
    || (SourceOf(w, path, s.0) && s.1 == if SmokeOnly(w, path) then SmokeInput(path) else Changed(path))
    || (EmbeddedIn(w, path, s.0) && s.1 == Embeds(path))
  }

  lemma SeedsExactly(w: Repo, path: Path, s: Seed)
    requires !Global(w, path)
    ensures s in Touched(w, path).seeds <==> SeedOf(w, path, s)
  {
    FullExactly(w, path);
    FixtureOfPath(w, path, Fmt);
    EmbedSeedsExactly(path, w.rel.embeds, s);
  }

  lemma InputsExactly(w: Repo, path: Path, p: Pkg, kind: Kind)
    requires !Global(w, path)
    ensures (p, kind) in Touched(w, path).inputs <==> Feeds(w, path, p, kind)
  {
    FullExactly(w, path);
    FixtureOfPath(w, path, Fmt);
    DeclaredInputsExactly(w.glob, path, w.rel.testInputs, (p, kind));
  }

  lemma SurfacesExactly(w: Repo, path: Path)
    requires !Global(w, path)
    ensures var t := Touched(w, path);
            && (t.ui <==> "ui/" <= path) && (t.ts <==> "packages/plugin-sdk/" <= path)
            && (t.py <==> "packages/plugin-sdk-python/" <= path) && (t.abi <==> path in ABI_SYNC_PATHS)
            && (t.e2eFull <==> AnyGlob(w.glob, path, w.rel.e2eFullPaths))
            && (t.releaseFull <==> AnyGlob(w.glob, path, w.rel.releaseFullPaths))
            && (t.gateway <==> SmokeOnly(w, path)) && (t.windows <==> AnyGlob(w.glob, path, w.rel.windowsPaths))
            && (t.e2eDirect <==> OwnedBy(w, path, E2E_PACKAGE) && !SmokeOnly(w, path))
  {
    FullExactly(w, path);
    FixtureOfPath(w, path, Fmt);
  }

  lemma FixtureChecksExactly(w: Repo, path: Path, k: Check)
    requires !Global(w, path)
    ensures k in Touched(w, path).fixtureChecks <==> FixtureAsks(w, path, k)
  {
    FullExactly(w, path);
    FixtureOfPath(w, path, k);
  }

  lemma GuestIdsExactly(w: Repo, path: Path, id: string)
    requires !Global(w, path)
    ensures id in Touched(w, path).e2eIds <==>
              || GuestFile(w, path, id)
              || (id in w.guests && w.guests[id].runtime == "workerd" && WorkerdEmbed(w, path))
  {
    FullExactly(w, path);
    var workerd := exists i :: 0 <= i < |w.rel.embeds| && path in w.rel.embeds[i].paths && w.rel.embeds[i].workerdE2e;
    assert workerd <==> WorkerdEmbed(w, path) by {
      if workerd {
        var i :| 0 <= i < |w.rel.embeds| && path in w.rel.embeds[i].paths && w.rel.embeds[i].workerdE2e;
        assert w.rel.embeds[i] in w.rel.embeds;
      }
    }
  }

  // ---- the survey of a change set ----

  /** A question about what was touched that a merge answers by either side. */
  ghost predicate Additive(q: Touch -> bool) {
    !q(NOTHING) && forall a, b :: q(Merge(a, b)) <==> q(a) || q(b)
  }

  lemma {:induction false} SurveyAny(env: Env, paths: seq<Path>, q: Touch -> bool)
    requires Additive(q)
    ensures q(SurveyOf(env, paths)) <==> exists path :: path in paths && q(env.touch(path))
  {
    if paths != [] {
      var n := |paths| - 1;
      SurveyAny(env, paths[..n], q);
      assert paths == paths[..n] + [paths[n]];
    }
  }

  // ---- the specification for a change set ----

  ghost predicate Seeded(w: Repo, paths: seq<Path>, p: Pkg) {
    exists path :: path in paths && (SourceOf(w, path, p) || EmbeddedIn(w, path, p))
  }

  /** Each package is a compile consumer of the one before it. */
  predicate Linked(edges: Edges, links: seq<Pkg>) {
    forall i :: 0 < i < |links| ==> links[i] in Consumers(edges, links[i - 1])
  }

  /** The change compiles `p`: a chain of compile consumers leads from a changed or embedding package to it. */
  ghost predicate Compiled(w: Repo, paths: seq<Path>, p: Pkg) {
    exists links: seq<Pkg> ::
      links != [] && Seeded(w, paths, links[0]) && Linked(w.index.compile, links) && links[|links| - 1] == p
  }

  ghost predicate DevOf(w: Repo, paths: seq<Path>, p: Pkg) {
    exists n :: Compiled(w, paths, n) && p in Consumers(w.index.dev, n)
  }

  /** The tests of `p` launch a compiled executable. */
  ghost predicate Launches(w: Repo, paths: seq<Path>, p: Pkg) {
    p in w.rel.testGuests && exists g :: g in w.rel.testGuests[p].build && Compiled(w, paths, g)
  }

  ghost predicate Fed(w: Repo, paths: seq<Path>, p: Pkg, kind: Kind) {
    exists path :: path in paths && Feeds(w, path, p, kind)
  }

  ghost predicate Affected(w: Repo, paths: seq<Path>, p: Pkg) {
    Compiled(w, paths, p) || DevOf(w, paths, p) || Launches(w, paths, p) || exists kind :: Fed(w, paths, p, kind)
  }

  ghost predicate Tests(w: Repo, paths: seq<Path>, p: Pkg) {
    || Compiled(w, paths, p) || DevOf(w, paths, p) || Launches(w, paths, p)
    || Fed(w, paths, p, TestsKind) || Fed(w, paths, p, DeclaredKind)
  }

  ghost predicate UnitTests(w: Repo, paths: seq<Path>, p: Pkg) {
    Compiled(w, paths, p) || DevOf(w, paths, p) || Launches(w, paths, p) || Fed(w, paths, p, DeclaredKind)
  }

  ghost predicate Benches(w: Repo, paths: seq<Path>, p: Pkg) {
    p in w.index.info && w.index.info[p].benches && (Compiled(w, paths, p) || DevOf(w, paths, p) || Fed(w, paths, p, BenchesKind))
  }

  ghost predicate Examples(w: Repo, paths: seq<Path>, p: Pkg) {
    p in w.index.info && w.index.info[p].examples && (Compiled(w, paths, p) || DevOf(w, paths, p) || Fed(w, paths, p, ExamplesKind))
  }

  ghost predicate Doctests(w: Repo, paths: seq<Path>, p: Pkg) {
    p in w.index.info && w.index.info[p].doctest && (Compiled(w, paths, p) || DevOf(w, paths, p))
  }

  // ---- the closure ----

  ghost predicate Reaches(edges: Edges, seeds: seq<Seed>, links: seq<Pkg>, p: Pkg) {
    links != [] && HasSeed(seeds, links[0]) && Linked(edges, links) && links[|links| - 1] == p
  }

  lemma {:induction false} ReachedIsClosed(edges: Edges, seeds: seq<Seed>, c: set<Pkg>, links: seq<Pkg>, p: Pkg)
    requires Closed(edges, seeds, c) && Reaches(edges, seeds, links, p)
    ensures p in c
    decreases |links|
  {
    var n := |links| - 1;
    if n > 0 {
      assert links[n] in Consumers(edges, links[n - 1]);
      ReachedIsClosed(edges, seeds, c, links[..n], links[n - 1]);
    }
  }

  lemma ReachesNext(edges: Edges, seeds: seq<Seed>, links: seq<Pkg>, p: Pkg, q: Pkg)
    requires Reaches(edges, seeds, links, p) && q in Consumers(edges, p)
    ensures Reaches(edges, seeds, links + [q], q)
  {}

  ghost function Reached(edges: Edges, seeds: seq<Seed>, c: set<Pkg>): set<Pkg> {
    set q | q in c && exists links :: Reaches(edges, seeds, links, q)
  }

  lemma ReachedHoldsConsumers(edges: Edges, seeds: seq<Seed>, c: set<Pkg>, a: Pkg, b: Pkg)
    requires Closed(edges, seeds, c) && a in Reached(edges, seeds, c) && b in Consumers(edges, a)
    ensures b in Reached(edges, seeds, c)
  {
    var links :| Reaches(edges, seeds, links, a);
    ReachesNext(edges, seeds, links, a, b);
  }

  /** The least closed set holds exactly the ends of chains. */
  lemma ClosureByChains(edges: Edges, seeds: seq<Seed>, c: set<Pkg>, p: Pkg)
    requires IsClosure(edges, seeds, c)
    ensures p in c <==> exists links :: Reaches(edges, seeds, links, p)
  {
    if links :| Reaches(edges, seeds, links, p) {
      ReachedIsClosed(edges, seeds, c, links, p);
    }
    var reached := Reached(edges, seeds, c);
    forall i | 0 <= i < |seeds| ensures seeds[i].0 in reached {
      assert Reaches(edges, seeds, [seeds[i].0], seeds[i].0);
    }
    forall a, b | a in reached && b in Consumers(edges, a) ensures b in reached {
      ReachedHoldsConsumers(edges, seeds, c, a, b);
    }
    assert Closed(edges, seeds, reached);
  }

  // ---- reading a change set ----

  /** What the survey and the closure say, in terms of the paths. */
  ghost predicate Reading(w: Repo, paths: seq<Path>, t: Touch, c: set<Pkg>) {
    && (forall path :: path in paths ==> !Global(w, path))
    && (forall p :: p in c <==> Compiled(w, paths, p))
    && (forall p, kind :: (p, kind) in t.inputs <==> Fed(w, paths, p, kind))
  }

  lemma NoneGlobal(w: Repo, paths: seq<Path>)
    ensures SurveyOf(EnvFor(w), paths).full <==> exists path :: path in paths && Global(w, path)
  {
    SurveyAny(EnvFor(w), paths, (t: Touch) => t.full);
    forall path { FullExactly(w, path); }
  }

  lemma SurveySeed(w: Repo, paths: seq<Path>, s: Seed)
    requires forall path :: path in paths ==> !Global(w, path)
    ensures s in SurveyOf(EnvFor(w), paths).seeds <==> exists path :: path in paths && SeedOf(w, path, s)
  {
    SurveyAny(EnvFor(w), paths, (t: Touch) => s in t.seeds);
    forall path | path in paths { SeedsExactly(w, path, s); }
  }

  lemma HasSeedExactly(seeds: seq<Seed>, p: Pkg)
    ensures HasSeed(seeds, p) <==> exists r :: (p, r) in seeds
  {
    if HasSeed(seeds, p) {
      var i :| 0 <= i < |seeds| && seeds[i].0 == p;
      assert (p, seeds[i].1) in seeds;
    }
    if r :| (p, r) in seeds {
      var i :| 0 <= i < |seeds| && seeds[i] == (p, r);
    }
  }

  lemma SurveySeeds(w: Repo, paths: seq<Path>, p: Pkg)
    requires forall path :: path in paths ==> !Global(w, path)
    ensures HasSeed(Grouped(SurveyOf(EnvFor(w), paths).seeds), p) <==> Seeded(w, paths, p)
  {
    var seeds := SurveyOf(EnvFor(w), paths).seeds;
    HasSeedExactly(Grouped(seeds), p);
    if r :| (p, r) in Grouped(seeds) {
      SurveySeed(w, paths, (p, r));
    }
    if Seeded(w, paths, p) {
      var path :| path in paths && (SourceOf(w, path, p) || EmbeddedIn(w, path, p));
      var r := if !SourceOf(w, path, p) then Embeds(path) else if SmokeOnly(w, path) then SmokeInput(path) else Changed(path);
      assert SeedOf(w, path, (p, r));
      SurveySeed(w, paths, (p, r));
    }
  }

  lemma CompiledByClosure(w: Repo, paths: seq<Path>, c: set<Pkg>, p: Pkg)
    requires forall path :: path in paths ==> !Global(w, path)
    requires IsClosure(w.index.compile, Grouped(SurveyOf(EnvFor(w), paths).seeds), c)
    ensures p in c <==> Compiled(w, paths, p)
  {
    var seeds := Grouped(SurveyOf(EnvFor(w), paths).seeds);
    forall q { SurveySeeds(w, paths, q); }
    ClosureByChains(w.index.compile, seeds, c, p);
    if p in c {
      var links :| Reaches(w.index.compile, seeds, links, p);
      assert Seeded(w, paths, links[0]);
    }
    if Compiled(w, paths, p) {
      var links: seq<Pkg> :| links != [] && Seeded(w, paths, links[0]) && Linked(w.index.compile, links) && links[|links| - 1] == p;
      assert Reaches(w.index.compile, seeds, links, p);
    }
  }

  lemma FedBySurvey(w: Repo, paths: seq<Path>, p: Pkg, kind: Kind)
    requires forall path :: path in paths ==> !Global(w, path)
    ensures (p, kind) in SurveyOf(EnvFor(w), paths).inputs <==> Fed(w, paths, p, kind)
  {
    SurveyAny(EnvFor(w), paths, (t: Touch) => (p, kind) in t.inputs);
    forall path | path in paths { InputsExactly(w, path, p, kind); }
  }

  lemma Reads(w: Repo, paths: seq<Path>, c: set<Pkg>)
    requires !SurveyOf(EnvFor(w), paths).full
    requires IsClosure(w.index.compile, Grouped(SurveyOf(EnvFor(w), paths).seeds), c)
    ensures Reading(w, paths, SurveyOf(EnvFor(w), paths), c)
  {
    NoneGlobal(w, paths);
    forall p { CompiledByClosure(w, paths, c, p); }
    forall p, kind { FedBySurvey(w, paths, p, kind); }
  }

  // ---- selected packages ----

  datatype Flag = CompiledFlag | TestsFlag | UnitFlag | BenchesFlag | ExamplesFlag | DoctestFlag | DocsFlag

  predicate Has(f: Flags, b: Flag) {
    match b
    case CompiledFlag => f.compiled
    case TestsFlag => f.tests
    case UnitFlag => f.unit
    case BenchesFlag => f.benches
    case ExamplesFlag => f.examples
    case DoctestFlag => f.doctest
    case DocsFlag => f.docs
  }

  predicate HasFlag(sel: map<Pkg, Flags>, p: Pkg, b: Flag) {
    p in sel && Has(sel[p], b)
  }

  function AllBut(b: Flag): Flags {
    Flags(b != CompiledFlag, b != TestsFlag, b != UnitFlag, b != BenchesFlag, b != ExamplesFlag, b != DoctestFlag, b != DocsFlag)
  }

  lemma BelowAllBut(f: Flags, b: Flag)
    ensures Leq(f, AllBut(b)) <==> !Has(f, b)
  {}

  /** A selected package has a flag exactly when some reason raises it. */
  lemma FlagByReason(env: Env, t: Touch, c: set<Pkg>, sel: map<Pkg, Flags>, p: Pkg, b: Flag)
    requires Selects(env, t, c, sel) && p in sel
    ensures Has(sel[p], b) <==> exists f :: Raises(env, t, c, p, f) && Has(f, b)
  {
    BelowAllBut(sel[p], b);
    assert Leq(sel[p], AllBut(b)) <==> AllBelow(env, t, c, p, AllBut(b));
    forall f { BelowAllBut(f, b); }
  }

  /** The reasons that raise a flag. */
  predicate RaisesFlag(env: Env, t: Touch, c: set<Pkg>, p: Pkg, b: Flag) {
    p in env.index.info &&
    (|| (p in c && Has(CompiledFlags(env.index.info[p]), b))
     || (DevHit(env, c, p) && Has(DevFlags(env.index.info[p]), b))
     || (LaunchHit(env, c, p) && Has(LAUNCH_FLAGS, b))
     || (exists k :: (p, k) in t.inputs && Has(KindFlags(k), b)))
  }

  lemma ReasonsForFlag(env: Env, t: Touch, c: set<Pkg>, p: Pkg, b: Flag)
    ensures (exists f :: Raises(env, t, c, p, f) && Has(f, b)) <==> RaisesFlag(env, t, c, p, b)
  {
    if RaisesFlag(env, t, c, p, b) {
      var info := env.index.info[p];
      if p in c && Has(CompiledFlags(info), b) {
        assert Raises(env, t, c, p, CompiledFlags(info));
      } else if DevHit(env, c, p) && Has(DevFlags(info), b) {
        assert Raises(env, t, c, p, DevFlags(info));
      } else if LaunchHit(env, c, p) && Has(LAUNCH_FLAGS, b) {
        assert Raises(env, t, c, p, LAUNCH_FLAGS);
      } else {
        var k :| (p, k) in t.inputs && Has(KindFlags(k), b);
        assert Raises(env, t, c, p, KindFlags(k));
      }
    }
  }

  /** Some reason selects the package. */
  lemma SelectedByReason(env: Env, t: Touch, c: set<Pkg>, sel: map<Pkg, Flags>, p: Pkg)
    requires Selects(env, t, c, sel)
    ensures p in sel <==> p in env.index.info && (p in c || DevHit(env, c, p) || LaunchHit(env, c, p) || exists k :: (p, k) in t.inputs)
  {
    if p in env.index.info {
      var info := env.index.info[p];
      if p in c { assert Raises(env, t, c, p, CompiledFlags(info)); }
      if DevHit(env, c, p) { assert Raises(env, t, c, p, DevFlags(info)); }
      if LaunchHit(env, c, p) { assert Raises(env, t, c, p, LAUNCH_FLAGS); }
      if k :| (p, k) in t.inputs { assert Raises(env, t, c, p, KindFlags(k)); }
    }
  }

  lemma HitsByPaths(w: Repo, paths: seq<Path>, t: Touch, c: set<Pkg>, p: Pkg)
    requires Reading(w, paths, t, c)
    ensures p in c || DevHit(EnvFor(w), c, p) <==> Compiled(w, paths, p) || DevOf(w, paths, p)
    ensures p in c || LaunchHit(EnvFor(w), c, p) <==> Compiled(w, paths, p) || Launches(w, paths, p)
  {
    if DevOf(w, paths, p) {
      var n :| Compiled(w, paths, n) && p in Consumers(w.index.dev, n);
      assert n in c;
    }
    if Launches(w, paths, p) {
      var g :| g in w.rel.testGuests[p].build && Compiled(w, paths, g);
      assert g in c;
    }
  }

  /** Everything a plan touches is a workspace package. */
  lemma AffectedIsKnown(w: Repo, paths: seq<Path>, p: Pkg)
    requires RepoOk(w)
    ensures Affected(w, paths, p) ==> p in w.index.info
  {
    if Compiled(w, paths, p) {
      var links: seq<Pkg> :| links != [] && Seeded(w, paths, links[0]) && Linked(w.index.compile, links) && links[|links| - 1] == p;
      if |links| > 1 {
        assert p in Consumers(w.index.compile, links[|links| - 2]);
      }
    }
  }

  /** A selection read off a change set. */
  ghost predicate Selection(w: Repo, paths: seq<Path>, t: Touch, c: set<Pkg>, sel: map<Pkg, Flags>) {
    RepoOk(w) && Reading(w, paths, t, c) && Selects(EnvFor(w), t, c, sel)
  }

  /** The kinds of test-only input that raise a flag. */
  function KindsFor(b: Flag): set<Kind> {
    match b
    case TestsFlag => {TestsKind, DeclaredKind}
    case UnitFlag => {DeclaredKind}
    case BenchesFlag => {BenchesKind}
    case ExamplesFlag => {ExamplesKind}
    case _ => {}
  }

  lemma KindsForExactly(k: Kind, b: Flag)
    ensures Has(KindFlags(k), b) <==> k in KindsFor(b)
  {}

  lemma FlagsGrow(info: PackageInfo, b: Flag)
    ensures Has(DevFlags(info), b) || Has(LAUNCH_FLAGS, b) ==> Has(CompiledFlags(info), b)
  {}

  ghost predicate FedAny(w: Repo, paths: seq<Path>, p: Pkg, kinds: set<Kind>) {
    exists k :: k in kinds && Fed(w, paths, p, k)
  }

  /** The reasons for a flag in terms of the paths. */
  ghost predicate Flagged(w: Repo, paths: seq<Path>, p: Pkg, b: Flag) {
    p in w.index.info &&
    (|| (Compiled(w, paths, p) && Has(CompiledFlags(w.index.info[p]), b))
     || (DevOf(w, paths, p) && Has(DevFlags(w.index.info[p]), b))
     || (Launches(w, paths, p) && Has(LAUNCH_FLAGS, b))
     || FedAny(w, paths, p, KindsFor(b)))
  }

  lemma FedAnyExactly(w: Repo, paths: seq<Path>, t: Touch, c: set<Pkg>, p: Pkg, b: Flag)
    requires Reading(w, paths, t, c)
    ensures (exists k :: (p, k) in t.inputs && Has(KindFlags(k), b)) <==> FedAny(w, paths, p, KindsFor(b))
  {
    if k :| (p, k) in t.inputs && Has(KindFlags(k), b) {
      KindsForExactly(k, b);
      assert Fed(w, paths, p, k);
    }
    if k :| k in KindsFor(b) && Fed(w, paths, p, k) {
      KindsForExactly(k, b);
      assert (p, k) in t.inputs;
    }
  }

  lemma RaisesByPaths(w: Repo, paths: seq<Path>, t: Touch, c: set<Pkg>, p: Pkg, b: Flag)
    requires Reading(w, paths, t, c)
    ensures RaisesFlag(EnvFor(w), t, c, p, b) <==> Flagged(w, paths, p, b)
  {
    HitsByPaths(w, paths, t, c, p);
    FedAnyExactly(w, paths, t, c, p, b);
    if p in w.index.info {
      FlagsGrow(w.index.info[p], b);
    }
  }

  lemma FlagByPaths(w: Repo, paths: seq<Path>, t: Touch, c: set<Pkg>, sel: map<Pkg, Flags>, p: Pkg, b: Flag)
    requires Selection(w, paths, t, c, sel)
    ensures HasFlag(sel, p, b) <==> Flagged(w, paths, p, b)
  {
    var env := EnvFor(w);
    ReasonsForFlag(env, t, c, p, b);
    RaisesByPaths(w, paths, t, c, p, b);
    if p in sel {
      FlagByReason(env, t, c, sel, p, b);
    } else {
      assert !exists f :: Raises(env, t, c, p, f);
    }
  }

  lemma AffectedExactly(w: Repo, paths: seq<Path>, t: Touch, c: set<Pkg>, sel: map<Pkg, Flags>, p: Pkg)
    requires Selection(w, paths, t, c, sel)
    ensures p in sel <==> Affected(w, paths, p)
  {
    SelectedByReason(EnvFor(w), t, c, sel, p);
    HitsByPaths(w, paths, t, c, p);
    AffectedIsKnown(w, paths, p);
    assert (exists k :: (p, k) in t.inputs) <==> exists k :: Fed(w, paths, p, k);
  }

  /** Flag by flag. */
  lemma FlaggedExactly(w: Repo, paths: seq<Path>, p: Pkg)
    requires RepoOk(w)
    ensures Flagged(w, paths, p, TestsFlag) <==> Tests(w, paths, p)
    ensures Flagged(w, paths, p, UnitFlag) <==> UnitTests(w, paths, p)
    ensures Flagged(w, paths, p, BenchesFlag) && p in w.index.info && w.index.info[p].benches <==> Benches(w, paths, p)
    ensures Flagged(w, paths, p, ExamplesFlag) && p in w.index.info && w.index.info[p].examples <==> Examples(w, paths, p)
    ensures Flagged(w, paths, p, DoctestFlag) <==> Doctests(w, paths, p)
    ensures Flagged(w, paths, p, DocsFlag) <==> Compiled(w, paths, p)
  {
    AffectedIsKnown(w, paths, p);
    FedKinds(w, paths, p);
  }

  lemma FedKinds(w: Repo, paths: seq<Path>, p: Pkg)
    ensures FedAny(w, paths, p, KindsFor(TestsFlag)) <==> Fed(w, paths, p, TestsKind) || Fed(w, paths, p, DeclaredKind)
    ensures FedAny(w, paths, p, KindsFor(UnitFlag)) <==> Fed(w, paths, p, DeclaredKind)
    ensures FedAny(w, paths, p, KindsFor(BenchesFlag)) <==> Fed(w, paths, p, BenchesKind)
    ensures FedAny(w, paths, p, KindsFor(ExamplesFlag)) <==> Fed(w, paths, p, ExamplesKind)
    ensures !FedAny(w, paths, p, KindsFor(DoctestFlag)) && !FedAny(w, paths, p, KindsFor(DocsFlag))
  {}

  lemma ChosenByPaths(w: Repo, paths: seq<Path>, t: Touch, c: set<Pkg>, sel: map<Pkg, Flags>, p: Pkg)
    requires Selection(w, paths, t, c, sel)
    ensures ChosenAt(w.index, ChangeOf(w, paths), sel, p)
  {
    AffectedExactly(w, paths, t, c, sel, p);
    FlagByPaths(w, paths, t, c, sel, p, TestsFlag);
    FlagByPaths(w, paths, t, c, sel, p, UnitFlag);
    FlagByPaths(w, paths, t, c, sel, p, BenchesFlag);
    FlagByPaths(w, paths, t, c, sel, p, ExamplesFlag);
    FlagByPaths(w, paths, t, c, sel, p, DoctestFlag);
    FlagByPaths(w, paths, t, c, sel, p, DocsFlag);
    FlaggedIs(w, paths, sel, p);
  }

  lemma FlaggedIs(w: Repo, paths: seq<Path>, sel: map<Pkg, Flags>, p: Pkg)
    requires RepoOk(w) && (p in sel <==> Affected(w, paths, p))
    requires HasFlag(sel, p, TestsFlag) <==> Flagged(w, paths, p, TestsFlag)
    requires HasFlag(sel, p, UnitFlag) <==> Flagged(w, paths, p, UnitFlag)
    requires HasFlag(sel, p, BenchesFlag) <==> Flagged(w, paths, p, BenchesFlag)
    requires HasFlag(sel, p, ExamplesFlag) <==> Flagged(w, paths, p, ExamplesFlag)
    requires HasFlag(sel, p, DoctestFlag) <==> Flagged(w, paths, p, DoctestFlag)
    requires HasFlag(sel, p, DocsFlag) <==> Flagged(w, paths, p, DocsFlag)
    ensures ChosenAt(w.index, ChangeOf(w, paths), sel, p)
  {
    FlaggedExactly(w, paths, p);
  }

  // ---- the specification of the checks ----

  ghost predicate Under(paths: seq<Path>, prefix: string) {
    exists path :: path in paths && prefix <= path
  }

  ghost predicate AbiTouched(paths: seq<Path>) {
    exists path :: path in paths && path in {"scripts/gen-plugin-abi.py", "scripts/sync-workerd-pin.py", "workerd.pin.json"}
  }

  ghost predicate Matching(w: Repo, paths: seq<Path>, patterns: seq<string>) {
    exists path :: path in paths && AnyGlob(w.glob, path, patterns)
  }

  /** A source of one of the packages itself was edited, other than an input of the gateway smoke test. */
  ghost predicate EditedIn(w: Repo, paths: seq<Path>, pkgs: set<Pkg>) {
    exists path, p :: path in paths && p in pkgs && SourceOf(w, path, p) && !SmokeOnly(w, path)
  }

  ghost predicate WholeE2e(w: Repo, paths: seq<Path>) {
    || (exists path :: path in paths && OwnedBy(w, path, "bookclerk-plugin-e2e") && !SmokeOnly(w, path))
    || EditedIn(w, paths, w.rel.e2eFullPackages) || Matching(w, paths, w.rel.e2eFullPaths)
  }

  /** Guest `id` has to be staged: its files or its package changed, the workerd
      runtime did, or it is a smoke guest and the shared host runtime was compiled. */
  ghost predicate GuestWanted(w: Repo, paths: seq<Path>, id: string) {
    || (exists path :: path in paths && GuestFile(w, path, id))
    || (id in w.guests && w.guests[id].runtime == "workerd" && exists path :: path in paths && WorkerdEmbed(w, path))
    || (id in w.guests && w.guests[id].package.Some? && Compiled(w, paths, w.guests[id].package.value))
    || (id in w.rel.runtimeSmoke && exists p :: p in w.rel.runtimeSmokePackages && Compiled(w, paths, p))
  }

  ghost predicate WholeRelease(w: Repo, paths: seq<Path>) {
    Matching(w, paths, w.rel.releaseFullPaths) || EditedIn(w, paths, w.rel.releaseFullPackages)
  }

  /** A change set in the terms above: what it does to each package, and which
      surfaces, guests and whole suites it touches. */
  datatype Change = Change(
    compiled: Pkg -> bool, affected: Pkg -> bool, tests: Pkg -> bool, unit: Pkg -> bool,
    benches: Pkg -> bool, examples: Pkg -> bool, doctests: Pkg -> bool,
    ui: bool, typescript: bool, python: bool, abi: bool, gateway: bool, windows: bool,
    guest: string -> bool, wholeE2e: bool, wholeRelease: bool)

  ghost function ChangeOf(w: Repo, paths: seq<Path>): Change {
    Change(
      p => Compiled(w, paths, p), p => Affected(w, paths, p), p => Tests(w, paths, p), p => UnitTests(w, paths, p),
      p => Benches(w, paths, p), p => Examples(w, paths, p), p => Doctests(w, paths, p),
      Under(paths, "ui/"), Under(paths, "packages/plugin-sdk/"), Under(paths, "packages/plugin-sdk-python/"),
      AbiTouched(paths),
      Matching(w, paths, w.rel.gatewayPaths), Matching(w, paths, w.rel.windowsPaths),
      id => GuestWanted(w, paths, id), WholeE2e(w, paths), WholeRelease(w, paths))
  }

  /** One of the packages is hit. */
  ghost predicate AnyOf(pkgs: set<Pkg>, hit: Pkg -> bool) {
    exists p :: p in pkgs && hit(p)
  }

  /** What asks for each check, fixtures aside. */
  ghost predicate Wanted(rel: Relations, ch: Change, k: Check) {
    match k
    case Fmt => exists p :: ch.affected(p)
    case Clippy => exists p :: ch.affected(p)
    case ClippyPublish => AnyOf({"bookclerk-plugin-abi", "bookclerk-plugin-manifest", "bookclerk-plugin-sdk"}, ch.affected)
    case AuthorSurface => ch.compiled("bookclerk-plugin-sdk")
    case PluginSdkAbi => SdkTouched(ch)
    case PythonSdk => SdkTouched(ch)
    case Ui => ch.ui || ch.compiled("bookclerkd")
    case ApiDocs => ch.typescript || ch.python || ch.ui || exists p :: ch.compiled(p)
    case Doctest => exists p :: ch.doctests(p)
    case StoreFree => AnyOf({"bookclerk-cli", "bookclerkd", "bookclerk-plugin-host"}, ch.compiled)
    case RustTest => exists p :: (ch.tests(p) && p != "bookclerk-plugin-e2e") || ch.benches(p) || ch.examples(p)
    case E2e => ch.wholeE2e || exists id :: ch.guest(id)
    case Confinement => Confinement in rel.platformJobs && AnyOf(rel.platformJobs[Confinement], ch.affected)
    case Tray => Tray in rel.platformJobs && AnyOf(rel.platformJobs[Tray], ch.affected)
    case NativeGateway => AnyOf(rel.gatewayPackages, ch.compiled) || ch.gateway
    case WindowsCluster => ch.windows
    case Postgres => exists step :: step in rel.postgresSteps && ch.unit(rel.postgresSteps[step])
    case Release => ch.wholeRelease || AnyOf(rel.releaseShipped, ch.compiled)
    case Unknown(_) => false
  }

  ghost predicate SdkTouched(ch: Change) {
    ch.typescript || ch.python || ch.abi
    || AnyOf({"bookclerk-plugin-abi", "bookclerk-plugin-manifest", "bookclerk-plugin-sdk"}, ch.compiled)
  }

  /** The selection of one package. */
  predicate ChosenAt(index: Index, ch: Change, sel: map<Pkg, Flags>, p: Pkg) {
    && (p in sel <==> ch.affected(p))
    && (HasFlag(sel, p, TestsFlag) <==> ch.tests(p))
    && (HasFlag(sel, p, UnitFlag) <==> ch.unit(p))
    && (HasFlag(sel, p, BenchesFlag) && p in index.info && index.info[p].benches <==> ch.benches(p))
    && (HasFlag(sel, p, ExamplesFlag) && p in index.info && index.info[p].examples <==> ch.examples(p))
    && (HasFlag(sel, p, DoctestFlag) <==> ch.doctests(p))
    && (HasFlag(sel, p, DocsFlag) <==> ch.compiled(p))
  }

  ghost predicate Chosen(index: Index, ch: Change, sel: map<Pkg, Flags>) {
    forall p :: ChosenAt(index, ch, sel, p)
  }

  /** The lists in the parameters of the checks. */
  lemma ListsExactly(index: Index, ch: Change, sel: map<Pkg, Flags>, p: Pkg)
    requires Chosen(index, ch, sel)
    ensures p in Tested(sel) <==> ch.tests(p) && p != "bookclerk-plugin-e2e"
    ensures p in Benched(index, sel) <==> ch.benches(p)
    ensures p in Exampled(index, sel) <==> ch.examples(p)
    ensures p in Doctested(sel) <==> ch.doctests(p)
    ensures p in Documented(sel) <==> ch.compiled(p)
    ensures p in sel <==> ch.affected(p)
  {
    assert ChosenAt(index, ch, sel, p);
    ListsByFlag(index, sel, p);
  }

  lemma ListsByFlag(index: Index, sel: map<Pkg, Flags>, p: Pkg)
    ensures p in Tested(sel) <==> HasFlag(sel, p, TestsFlag) && p != "bookclerk-plugin-e2e"
    ensures p in Benched(index, sel) <==> HasFlag(sel, p, BenchesFlag) && p in index.info && index.info[p].benches
    ensures p in Exampled(index, sel) <==> HasFlag(sel, p, ExamplesFlag) && p in index.info && index.info[p].examples
    ensures p in Doctested(sel) <==> HasFlag(sel, p, DoctestFlag)
    ensures p in Documented(sel) <==> HasFlag(sel, p, DocsFlag)
  {}

  // ---- the checks ----

  lemma AnyOfExactly(s: set<Pkg>, pkgs: set<Pkg>, hit: Pkg -> bool)
    requires forall p :: p in s <==> hit(p)
    ensures s * pkgs != {} <==> AnyOf(pkgs, hit)
    ensures pkgs * s != {} <==> AnyOf(pkgs, hit)
  {
    if p :| p in s * pkgs { assert hit(p); }
    if p :| p in pkgs * s { assert hit(p); }
    if p :| p in pkgs && hit(p) { assert p in s * pkgs && p in pkgs * s; }
  }

  /** The surfaces of a change set are those of its paths. */
  lemma SurveySurfaces(w: Repo, paths: seq<Path>)
    requires forall path :: path in paths ==> !Global(w, path)
    ensures var t := SurveyOf(EnvFor(w), paths);
            && (t.ui <==> Under(paths, "ui/")) && (t.ts <==> Under(paths, "packages/plugin-sdk/"))
            && (t.py <==> Under(paths, "packages/plugin-sdk-python/"))
  {
    var env := EnvFor(w);
    SurveyAny(env, paths, (t: Touch) => t.ui);
    SurveyAny(env, paths, (t: Touch) => t.ts);
    SurveyAny(env, paths, (t: Touch) => t.py);
    forall path | path in paths { SurfacesExactly(w, path); }
  }

  lemma SurveyAbi(w: Repo, paths: seq<Path>)
    requires forall path :: path in paths ==> !Global(w, path)
    ensures SurveyOf(EnvFor(w), paths).abi <==> AbiTouched(paths)
  {
    SurveyAny(EnvFor(w), paths, (t: Touch) => t.abi);
    forall path | path in paths ensures Touched(w, path).abi <==> path in ABI_SYNC_PATHS { SurfacesExactly(w, path); }
  }

  lemma SurveyMatches(w: Repo, paths: seq<Path>)
    requires forall path :: path in paths ==> !Global(w, path)
    ensures var t := SurveyOf(EnvFor(w), paths);
            && (t.e2eFull <==> Matching(w, paths, w.rel.e2eFullPaths))
            && (t.releaseFull <==> Matching(w, paths, w.rel.releaseFullPaths))
            && (t.e2eDirect <==> exists path :: path in paths && OwnedBy(w, path, "bookclerk-plugin-e2e") && !SmokeOnly(w, path))
  {
    var env := EnvFor(w);
    SurveyAny(env, paths, (t: Touch) => t.e2eFull);
    SurveyAny(env, paths, (t: Touch) => t.releaseFull);
    SurveyAny(env, paths, (t: Touch) => t.e2eDirect);
    forall path | path in paths { SurfacesExactly(w, path); }
  }

  lemma SurveyPlatforms(w: Repo, paths: seq<Path>)
    requires forall path :: path in paths ==> !Global(w, path)
    ensures var t := SurveyOf(EnvFor(w), paths);
            && (t.gateway <==> Matching(w, paths, w.rel.gatewayPaths))
            && (t.windows <==> Matching(w, paths, w.rel.windowsPaths))
  {
    var env := EnvFor(w);
    SurveyAny(env, paths, (t: Touch) => t.gateway);
    SurveyAny(env, paths, (t: Touch) => t.windows);
    forall path | path in paths { SurfacesExactly(w, path); }
  }

  lemma SurveyGuests(w: Repo, paths: seq<Path>, id: string)
    requires forall path :: path in paths ==> !Global(w, path)
    ensures id in SurveyOf(EnvFor(w), paths).e2eIds <==>
              || (exists path :: path in paths && GuestFile(w, path, id))
              || (id in w.guests && w.guests[id].runtime == "workerd" && exists path :: path in paths && WorkerdEmbed(w, path))
  {
    SurveyAny(EnvFor(w), paths, (t: Touch) => id in t.e2eIds);
    forall path | path in paths { GuestIdsExactly(w, path, id); }
  }

  lemma SurveyFixtures(w: Repo, paths: seq<Path>, k: Check)
    requires forall path :: path in paths ==> !Global(w, path)
    ensures k in SurveyOf(EnvFor(w), paths).fixtureChecks <==> exists path :: path in paths && FixtureAsks(w, path, k)
  {
    SurveyAny(EnvFor(w), paths, (t: Touch) => k in t.fixtureChecks);
    forall path | path in paths { FixtureChecksExactly(w, path, k); }
  }

  lemma SourceChangedExactly(t: Touch, pkgs: set<Pkg>)
    ensures SourceChanged(t, pkgs) <==> exists p, path :: p in pkgs && (p, Changed(path)) in t.seeds
  {
    if SourceChanged(t, pkgs) {
      var i :| 0 <= i < |t.seeds| && t.seeds[i].0 in pkgs && t.seeds[i].1.Changed?;
      assert (t.seeds[i].0, Changed(t.seeds[i].1.path)) in t.seeds;
    }
    if p, path :| p in pkgs && (p, Changed(path)) in t.seeds {
      var i :| 0 <= i < |t.seeds| && t.seeds[i] == (p, Changed(path));
    }
  }

  lemma SurveyEdits(w: Repo, paths: seq<Path>, pkgs: set<Pkg>)
    requires forall path :: path in paths ==> !Global(w, path)
    ensures SourceChanged(SurveyOf(EnvFor(w), paths), pkgs) <==> EditedIn(w, paths, pkgs)
  {
    SourceChangedExactly(SurveyOf(EnvFor(w), paths), pkgs);
    if p, path :| p in pkgs && (p, Changed(path)) in SurveyOf(EnvFor(w), paths).seeds {
      SurveySeed(w, paths, (p, Changed(path)));
      var at :| at in paths && SeedOf(w, at, (p, Changed(path)));
      assert SourceOf(w, at, p) && !SmokeOnly(w, at);
    }
    if path, p :| path in paths && p in pkgs && SourceOf(w, path, p) && !SmokeOnly(w, path) {
      assert SeedOf(w, path, (p, Changed(path)));
      SurveySeed(w, paths, (p, Changed(path)));
    }
  }

  // ---- scopes ----

  ghost predicate CompiledAre(ch: Change, c: set<Pkg>) {
    forall p :: p in c <==> ch.compiled(p)
  }

  /** Either the whole end-to-end suite, or exactly the wanted guests, or nothing. */
  ghost predicate ScopeIs(ch: Change, scope: Option<Scope>) {
    if ch.wholeE2e then scope == Some(FullScope)
    else if exists id :: ch.guest(id) then scope.Some? && scope.value.Guests? && forall id :: id in scope.value.ids <==> ch.guest(id)
    else scope == None
  }

  /** Either the whole release, or exactly the compiled shipped packages, or nothing. */
  ghost predicate ReleaseIs(rel: Relations, ch: Change, release: Option<Mode>) {
    if ch.wholeRelease then release == Some(FullMode)
    else if AnyOf(rel.releaseShipped, ch.compiled) then
      release.Some? && release.value.Affected? && forall p :: p in release.value.packages <==> p in rel.releaseShipped && ch.compiled(p)
    else release == None
  }

  function GuestIds(env: Env, t: Touch, c: set<Pkg>): set<string> {
    t.e2eIds + (set id | id in env.guests && env.guests[id].package.Some? && env.guests[id].package.value in c)
    + if c * env.rel.runtimeSmokePackages != {} then env.rel.runtimeSmoke else {}
  }

  lemma GuestIdsByPart(env: Env, t: Touch, c: set<Pkg>, id: string)
    ensures id in GuestIds(env, t, c) <==>
              || id in t.e2eIds
              || (id in env.guests && env.guests[id].package.Some? && env.guests[id].package.value in c)
              || (id in env.rel.runtimeSmoke && c * env.rel.runtimeSmokePackages != {})
  {}

  lemma MeetsCompiled(w: Repo, paths: seq<Path>, c: set<Pkg>, pkgs: set<Pkg>)
    requires forall p :: p in c <==> Compiled(w, paths, p)
    ensures c * pkgs != {} <==> exists p :: p in pkgs && Compiled(w, paths, p)
  {
    if p :| p in c * pkgs { assert Compiled(w, paths, p); }
    if p :| p in pkgs && Compiled(w, paths, p) { assert p in c * pkgs; }
  }

  lemma GuestIdsAreWanted(w: Repo, paths: seq<Path>, c: set<Pkg>, id: string)
    requires (forall path :: path in paths ==> !Global(w, path)) && forall p :: p in c <==> Compiled(w, paths, p)
    ensures id in GuestIds(EnvFor(w), SurveyOf(EnvFor(w), paths), c) <==> GuestWanted(w, paths, id)
  {
    GuestIdsByPart(EnvFor(w), SurveyOf(EnvFor(w), paths), c, id);
    SurveyGuests(w, paths, id);
    MeetsCompiled(w, paths, c, w.rel.runtimeSmokePackages);
  }

  lemma ScopeExactly(w: Repo, paths: seq<Path>, c: set<Pkg>)
    requires (forall path :: path in paths ==> !Global(w, path)) && forall p :: p in c <==> Compiled(w, paths, p)
    ensures var t := SurveyOf(EnvFor(w), paths);
            ScopeIs(ChangeOf(w, paths), E2eScope(EnvFor(w), t, c, SourceChanged(t, w.rel.e2eFullPackages)))
  {
    var env, t := EnvFor(w), SurveyOf(EnvFor(w), paths);
    SurveyMatches(w, paths);
    SurveyEdits(w, paths, w.rel.e2eFullPackages);
    assert t.e2eDirect || SourceChanged(t, w.rel.e2eFullPackages) || t.e2eFull <==> WholeE2e(w, paths);
    forall id ensures id in GuestIds(env, t, c) <==> ChangeOf(w, paths).guest(id) { GuestIdsAreWanted(w, paths, c, id); }
    ScopeOfIds(env, t, c, SourceChanged(t, w.rel.e2eFullPackages), ChangeOf(w, paths));
  }

  lemma ScopeByIds(env: Env, t: Touch, c: set<Pkg>, changed: bool)
    ensures E2eScope(env, t, c, changed) ==
              if t.e2eDirect || changed || t.e2eFull then Some(FullScope)
              else if GuestIds(env, t, c) == {} then None else Some(Guests(GuestIds(env, t, c)))
  {
    var built := set id | id in env.guests && env.guests[id].package.Some? && env.guests[id].package.value in c;
    var smoke := if c * env.rel.runtimeSmokePackages != {} then env.rel.runtimeSmoke else {};
    assert GuestIds(env, t, c) == t.e2eIds + built + smoke;
  }

  lemma ScopeOfIds(env: Env, t: Touch, c: set<Pkg>, changed: bool, ch: Change)
    requires (t.e2eDirect || changed || t.e2eFull <==> ch.wholeE2e) && forall id :: id in GuestIds(env, t, c) <==> ch.guest(id)
    ensures ScopeIs(ch, E2eScope(env, t, c, changed))
  {
    ScopeByIds(env, t, c, changed);
    ScopeFromIds(ch, GuestIds(env, t, c), E2eScope(env, t, c, changed));
  }

  lemma ScopeFromIds(ch: Change, ids: set<string>, scope: Option<Scope>)
    requires forall id :: id in ids <==> ch.guest(id)
    requires scope == if ch.wholeE2e then Some(FullScope) else if ids == {} then None else Some(Guests(ids))
    ensures ScopeIs(ch, scope)
  {
    if id :| id in ids { assert ch.guest(id); }
    if id :| ch.guest(id) { assert id in ids; }
  }

  lemma ReleaseExactly(w: Repo, paths: seq<Path>, c: set<Pkg>)
    requires (forall path :: path in paths ==> !Global(w, path)) && CompiledAre(ChangeOf(w, paths), c)
    ensures var t := SurveyOf(EnvFor(w), paths);
            ReleaseIs(w.rel, ChangeOf(w, paths), ReleaseMode(EnvFor(w), t, c, SourceChanged(t, w.rel.releaseFullPackages)))
  {
    var t := SurveyOf(EnvFor(w), paths);
    SurveyMatches(w, paths);
    SurveyEdits(w, paths, w.rel.releaseFullPackages);
    ReleaseOfCompiled(EnvFor(w), ChangeOf(w, paths), t, c, SourceChanged(t, w.rel.releaseFullPackages));
  }

  lemma ReleaseOfCompiled(env: Env, ch: Change, t: Touch, c: set<Pkg>, changed: bool)
    requires (t.releaseFull || changed <==> ch.wholeRelease) && CompiledAre(ch, c)
    ensures ReleaseIs(env.rel, ch, ReleaseMode(env, t, c, changed))
  {
    var shipped := env.rel.releaseShipped;
    AnyOfExactly(c, shipped, ch.compiled);
    forall p ensures p in shipped * c <==> p in shipped && ch.compiled(p) {}
  }

  // ---- the plan ----

  /** What the surfaces of the survey say. */
  predicate SurfacesAre(ch: Change, t: Touch) {
    && t.ui == ch.ui && t.ts == ch.typescript && t.py == ch.python && t.abi == ch.abi
    && t.gateway == ch.gateway && t.windows == ch.windows
  }

  lemma CompiledChecks(env: Env, ch: Change, t: Touch, c: set<Pkg>, sel: map<Pkg, Flags>, scope: Option<Scope>, release: Option<Mode>, k: Check)
    requires CompiledAre(ch, c) && SurfacesAre(ch, t)
    requires k in {AuthorSurface, PluginSdkAbi, PythonSdk, Ui, StoreFree, NativeGateway, WindowsCluster}
    ensures Picked(env, t, c, sel, scope, release, k) <==> Wanted(env.rel, ch, k)
  {
    if k in {PluginSdkAbi, PythonSdk} {
      AnyOfExactly(c, PUBLISH_CRATES, ch.compiled);
    } else if k == StoreFree {
      AnyOfExactly(c, STORE_FREE_PACKAGES, ch.compiled);
    } else if k == NativeGateway {
      AnyOfExactly(c, env.rel.gatewayPackages, ch.compiled);
    }
  }

  lemma LintChecks(env: Env, ch: Change, t: Touch, c: set<Pkg>, sel: map<Pkg, Flags>, scope: Option<Scope>, release: Option<Mode>, k: Check)
    requires Chosen(env.index, ch, sel) && k in {Fmt, Clippy, ClippyPublish, Confinement, Tray}
    ensures Picked(env, t, c, sel, scope, release, k) <==> Wanted(env.rel, ch, k)
  {
    ChosenKeys(env.index, ch, sel);
    LintByKeys(env, ch, t, c, sel, scope, release, k);
  }

  lemma ChosenKeys(index: Index, ch: Change, sel: map<Pkg, Flags>)
    requires Chosen(index, ch, sel)
    ensures forall p :: p in sel.Keys <==> ch.affected(p)
  {
    forall p ensures p in sel.Keys <==> ch.affected(p) { assert ChosenAt(index, ch, sel, p); }
  }

  lemma LintByKeys(env: Env, ch: Change, t: Touch, c: set<Pkg>, sel: map<Pkg, Flags>, scope: Option<Scope>, release: Option<Mode>, k: Check)
    requires (forall p :: p in sel.Keys <==> ch.affected(p)) && k in {Fmt, Clippy, ClippyPublish, Confinement, Tray}
    ensures Picked(env, t, c, sel, scope, release, k) <==> Wanted(env.rel, ch, k)
  {
    if k == ClippyPublish {
      AnyOfExactly(sel.Keys, PUBLISH_CRATES, ch.affected);
    } else if k in {Confinement, Tray} {
      AnyOfExactly(sel.Keys, PlatformPackages(env.rel, k), ch.affected);
    } else {
      if p :| ch.affected(p) { assert p in sel.Keys; }
      if p :| p in sel.Keys { assert ch.affected(p); }
    }
  }

  lemma RustTestCheck(env: Env, ch: Change, t: Touch, c: set<Pkg>, sel: map<Pkg, Flags>, scope: Option<Scope>, release: Option<Mode>)
    requires Chosen(env.index, ch, sel)
    ensures Picked(env, t, c, sel, scope, release, RustTest) <==> Wanted(env.rel, ch, RustTest)
  {
    if p :| p in Tested(sel) { ListsExactly(env.index, ch, sel, p); }
    if p :| p in Benched(env.index, sel) { ListsExactly(env.index, ch, sel, p); }
    if p :| p in Exampled(env.index, sel) { ListsExactly(env.index, ch, sel, p); }
    if Wanted(env.rel, ch, RustTest) {
      var p :| (ch.tests(p) && p != "bookclerk-plugin-e2e") || ch.benches(p) || ch.examples(p);
      ListsExactly(env.index, ch, sel, p);
    }
  }

  lemma DocChecks(env: Env, ch: Change, t: Touch, c: set<Pkg>, sel: map<Pkg, Flags>, scope: Option<Scope>, release: Option<Mode>, k: Check)
    requires Chosen(env.index, ch, sel) && SurfacesAre(ch, t) && k in {Doctest, ApiDocs}
    ensures Picked(env, t, c, sel, scope, release, k) <==> Wanted(env.rel, ch, k)
  {
    if p :| p in Doctested(sel) { ListsExactly(env.index, ch, sel, p); }
    if p :| p in Documented(sel) { ListsExactly(env.index, ch, sel, p); }
    if p :| ch.doctests(p) { ListsExactly(env.index, ch, sel, p); }
    if p :| ch.compiled(p) { ListsExactly(env.index, ch, sel, p); }
  }

  lemma StepsExactly(env: Env, ch: Change, sel: map<Pkg, Flags>, step: string)
    requires Chosen(env.index, ch, sel)
    ensures step in Steps(env.rel, sel) <==> step in env.rel.postgresSteps && ch.unit(env.rel.postgresSteps[step])
  {
    if step in env.rel.postgresSteps {
      var p := env.rel.postgresSteps[step];
      assert ChosenAt(env.index, ch, sel, p);
      assert HasFlag(sel, p, UnitFlag) <==> p in sel && sel[p].unit;
    }
  }

  lemma PostgresCheck(env: Env, ch: Change, t: Touch, c: set<Pkg>, sel: map<Pkg, Flags>, scope: Option<Scope>, release: Option<Mode>)
    requires Chosen(env.index, ch, sel)
    ensures Picked(env, t, c, sel, scope, release, Postgres) <==> Wanted(env.rel, ch, Postgres)
  {
    if step :| step in Steps(env.rel, sel) { StepsExactly(env, ch, sel, step); }
    if step :| step in env.rel.postgresSteps && ch.unit(env.rel.postgresSteps[step]) { StepsExactly(env, ch, sel, step); }
  }

  lemma PickedExactly(env: Env, ch: Change, t: Touch, c: set<Pkg>, sel: map<Pkg, Flags>, scope: Option<Scope>, release: Option<Mode>, k: Check)
    requires Chosen(env.index, ch, sel) && CompiledAre(ch, c) && SurfacesAre(ch, t)
    requires ScopeIs(ch, scope) && ReleaseIs(env.rel, ch, release)
    ensures Picked(env, t, c, sel, scope, release, k) <==> Wanted(env.rel, ch, k)
  {
    match k
    case RustTest => RustTestCheck(env, ch, t, c, sel, scope, release);
    case Postgres => PostgresCheck(env, ch, t, c, sel, scope, release);
    case E2e =>
    case Release =>
    case Unknown(_) =>
    case _ =>
      if k in {Fmt, Clippy, ClippyPublish, Confinement, Tray} {
        LintChecks(env, ch, t, c, sel, scope, release, k);
      } else if k in {Doctest, ApiDocs} {
        DocChecks(env, ch, t, c, sel, scope, release, k);
      } else {
        CompiledChecks(env, ch, t, c, sel, scope, release, k);
      }
  }

  lemma AllChecksEnrolled(k: Check)
    ensures k in ALL_CHECKS <==> !k.Unknown?
  {}

  ghost predicate FixtureAsked(w: Repo, paths: seq<Path>, k: Check) {
    exists path :: path in paths && FixtureAsks(w, path, k)
  }

  lemma ChecksByPick(env: Env, t: Touch, c: set<Pkg>, sel: map<Pkg, Flags>, scope: Option<Scope>, release: Option<Mode>, k: Check)
    ensures k in Checks(env, t, c, sel, scope, release) <==>
              (k in ALL_CHECKS && Picked(env, t, c, sel, scope, release, k)) || k in t.fixtureChecks
  {}

  lemma ChecksExactly(env: Env, ch: Change, t: Touch, c: set<Pkg>, sel: map<Pkg, Flags>, scope: Option<Scope>, release: Option<Mode>, k: Check)
    requires Chosen(env.index, ch, sel) && CompiledAre(ch, c) && SurfacesAre(ch, t)
    requires ScopeIs(ch, scope) && ReleaseIs(env.rel, ch, release)
    ensures k in Checks(env, t, c, sel, scope, release) <==> Wanted(env.rel, ch, k) || k in t.fixtureChecks
  {
    ChecksByPick(env, t, c, sel, scope, release, k);
    PickedExactly(env, ch, t, c, sel, scope, release, k);
    if k.Unknown? {
      assert !Wanted(env.rel, ch, k);
    } else {
      AllChecksEnrolled(k);
    }
  }

  /** All that a selective plan says: the checks that the change wants or a fixture
      asks for, the packages with their targets, the scopes and the steps. */
  ghost predicate PlanIs(w: Repo, paths: seq<Path>, plan: Plan) {
    var ch := ChangeOf(w, paths);
    && !plan.full
    && (forall k :: k in plan.checks <==> Wanted(w.rel, ch, k) || FixtureAsked(w, paths, k))
    && Chosen(w.index, ch, plan.packages)
    && ScopeIs(ch, plan.scope) && ReleaseIs(w.rel, ch, plan.release)
    && (forall step :: step in plan.steps <==> step in w.rel.postgresSteps && ch.unit(w.rel.postgresSteps[step]))
  }

  /** What the planner works from, in the terms of the change. */
  lemma StageOne(w: Repo, paths: seq<Path>, c: set<Pkg>, sel: map<Pkg, Flags>)
    requires RepoOk(w) && !SurveyOf(EnvFor(w), paths).full
    requires IsClosure(w.index.compile, Grouped(SurveyOf(EnvFor(w), paths).seeds), c)
    requires Selects(EnvFor(w), SurveyOf(EnvFor(w), paths), c, sel)
    ensures forall path :: path in paths ==> !Global(w, path)
    ensures var ch, t := ChangeOf(w, paths), SurveyOf(EnvFor(w), paths);
            Chosen(w.index, ch, sel) && CompiledAre(ch, c) && SurfacesAre(ch, t)
  {
    Reads(w, paths, c);
    AllChosen(w, paths, SurveyOf(EnvFor(w), paths), c, sel);
    SurfacesByPaths(w, paths);
  }

  lemma AllChosen(w: Repo, paths: seq<Path>, t: Touch, c: set<Pkg>, sel: map<Pkg, Flags>)
    requires Selection(w, paths, t, c, sel)
    ensures Chosen(w.index, ChangeOf(w, paths), sel) && CompiledAre(ChangeOf(w, paths), c)
  {
    forall p ensures ChosenAt(w.index, ChangeOf(w, paths), sel, p) { ChosenByPaths(w, paths, t, c, sel, p); }
  }

  lemma SurfacesByPaths(w: Repo, paths: seq<Path>)
    requires forall path :: path in paths ==> !Global(w, path)
    ensures SurfacesAre(ChangeOf(w, paths), SurveyOf(EnvFor(w), paths))
  {
    SurveySurfaces(w, paths);
    SurveyAbi(w, paths);
    SurveyPlatforms(w, paths);
  }

  lemma SelectiveIs(w: Repo, paths: seq<Path>, c: set<Pkg>, sel: map<Pkg, Flags>)
    requires RepoOk(w) && !SurveyOf(EnvFor(w), paths).full
    requires IsClosure(w.index.compile, Grouped(SurveyOf(EnvFor(w), paths).seeds), c)
    requires Selects(EnvFor(w), SurveyOf(EnvFor(w), paths), c, sel)
    ensures var t := SurveyOf(EnvFor(w), paths);
            PlanIs(w, paths, SelectivePlan(EnvFor(w), t, c, sel, SourceChanged(t, w.rel.e2eFullPackages),
                                           SourceChanged(t, w.rel.releaseFullPackages)))
  {
    StageOne(w, paths, c, sel);
    Reads(w, paths, c);
    ScopeExactly(w, paths, c);
    ReleaseExactly(w, paths, c);
    StageTwo(w, paths, c, sel);
  }

  lemma StageTwo(w: Repo, paths: seq<Path>, c: set<Pkg>, sel: map<Pkg, Flags>)
    requires forall path :: path in paths ==> !Global(w, path)
    requires var ch, t := ChangeOf(w, paths), SurveyOf(EnvFor(w), paths);
             && Chosen(w.index, ch, sel) && CompiledAre(ch, c) && SurfacesAre(ch, t)
             && ScopeIs(ch, E2eScope(EnvFor(w), t, c, SourceChanged(t, w.rel.e2eFullPackages)))
             && ReleaseIs(w.rel, ch, ReleaseMode(EnvFor(w), t, c, SourceChanged(t, w.rel.releaseFullPackages)))
    ensures var t := SurveyOf(EnvFor(w), paths);
            PlanIs(w, paths, SelectivePlan(EnvFor(w), t, c, sel, SourceChanged(t, w.rel.e2eFullPackages),
                                           SourceChanged(t, w.rel.releaseFullPackages)))
  {
    var env, t, ch := EnvFor(w), SurveyOf(EnvFor(w), paths), ChangeOf(w, paths);
    var scope := E2eScope(env, t, c, SourceChanged(t, w.rel.e2eFullPackages));
    var release := ReleaseMode(env, t, c, SourceChanged(t, w.rel.releaseFullPackages));
    forall k ensures k in Checks(env, t, c, sel, scope, release) <==> Wanted(w.rel, ch, k) || FixtureAsked(w, paths, k) {
      ChecksExactly(env, ch, t, c, sel, scope, release, k);
      SurveyFixtures(w, paths, k);
    }
    forall step ensures step in Steps(w.rel, sel) <==> step in w.rel.postgresSteps && ch.unit(w.rel.postgresSteps[step]) {
      StepsExactly(env, ch, sel, step);
    }
  }

  /** The plan for a change set: the full suite exactly when some path is global;
      otherwise exactly the checks, packages, scopes and steps that the paths, the
      workspace graph and the relations ask for. */
  lemma PlanExactly(w: Repo, paths: seq<Path>, plan: Plan)
    requires RepoOk(w) && paths != [] && Plans(EnvFor(w), paths, plan)
    ensures if exists path :: path in paths && Global(w, path) then plan == FullPlan(EnvFor(w)) else PlanIs(w, paths, plan)
  {
    var t := SurveyOf(EnvFor(w), paths);
    NoneGlobal(w, paths);
    if !t.full {
      var c, sel :|
        && IsClosure(w.index.compile, Grouped(t.seeds), c) && Selects(EnvFor(w), t, c, sel)
        && plan == SelectivePlan(EnvFor(w), t, c, sel, SourceChanged(t, w.rel.e2eFullPackages),
                                 SourceChanged(t, w.rel.releaseFullPackages));
      SelectiveIs(w, paths, c, sel);
    }
  }

  /** Compiled packages of a plan of either kind. */
  lemma CompiledIsPlanned(w: Repo, paths: seq<Path>, plan: Plan, q: Pkg)
    requires RepoOk(w) && paths != [] && Plans(EnvFor(w), paths, plan) && Compiled(w, paths, q)
    ensures Fmt in plan.checks && Clippy in plan.checks && ApiDocs in plan.checks
    ensures q in plan.packages && q in Documented(plan.packages)
    ensures q != "bookclerk-plugin-e2e" ==> q in Tested(plan.packages) && RustTest in plan.checks
  {
    PlanExactly(w, paths, plan);
    AffectedIsKnown(w, paths, q);
    if plan.full {
      assert plan.packages == FullPlan(EnvFor(w)).packages;
      assert plan.packages[q].docs && plan.packages[q].tests;
    } else {
      CompiledIsChosen(w.index, w.rel, ChangeOf(w, paths), plan.packages, q);
    }
  }

  lemma CompiledIsChosen(index: Index, rel: Relations, ch: Change, sel: map<Pkg, Flags>, q: Pkg)
    requires Chosen(index, ch, sel) && ch.compiled(q) && ch.affected(q) && ch.tests(q)
    ensures Wanted(rel, ch, Fmt) && Wanted(rel, ch, Clippy) && Wanted(rel, ch, ApiDocs)
    ensures q in sel && q in Documented(sel)
    ensures q != "bookclerk-plugin-e2e" ==> q in Tested(sel) && Wanted(rel, ch, RustTest)
  {
    ListsExactly(index, ch, sel, q);
  }

  /** The headline: when a source of package `p` changes, formatting and linting
      run, and every package that `p` reaches through compile consumers, `p` first,
      is documented and, but for the end-to-end crate, tested. */
  lemma SourceChangeIsTested(w: Repo, paths: seq<Path>, plan: Plan, path: Path, p: Pkg, links: seq<Pkg>)
    requires RepoOk(w) && Plans(EnvFor(w), paths, plan) && path in paths && SourceOf(w, path, p)
    requires links != [] && links[0] == p && Linked(w.index.compile, links)
    ensures Fmt in plan.checks && Clippy in plan.checks && ApiDocs in plan.checks
    ensures var q := links[|links| - 1];
            && q in plan.packages && q in Documented(plan.packages)
            && (q != "bookclerk-plugin-e2e" ==> q in Tested(plan.packages) && RustTest in plan.checks)
  {
    assert Seeded(w, paths, p);
    CompiledIsPlanned(w, paths, plan, links[|links| - 1]);
  }
}
