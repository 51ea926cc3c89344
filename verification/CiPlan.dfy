/** The selective-CI planner: changed paths to packages, checks and scopes. */
module CiPlan {
  import opened Basics
  import opened CiClosure
  import Keys

  // ---- the workspace ----

  datatype Kind = TestsKind | BenchesKind | ExamplesKind | DeclaredKind

  datatype PackageInfo = PackageInfo(doctest: bool, benches: bool, examples: bool)

  /** Workspace members, their reverse edges, the package that owns a path, and
      the test-only target a path of that package feeds, if any. */
  datatype Index = Index(
    info: map<Pkg, PackageInfo>, compile: Edges, dev: Edges,
    owner: Path -> Option<Pkg>, inputKind: (Path, Pkg) -> Option<Kind>)

  datatype Guest = Guest(id: string, tier: string, runtime: string, relDir: string, package: Option<Pkg>)

  datatype Embed = Embed(package: Pkg, paths: set<Path>, workerdE2e: bool)
  datatype TestInput = TestInput(package: Pkg, patterns: seq<string>)
  datatype Fixture = Fixture(patterns: seq<string>, checks: seq<Check>)
  datatype TestGuest = TestGuest(build: seq<Pkg>, ensureWorkerd: bool)

  /** `relations.toml`. */
  datatype Relations = Relations(
    embeds: seq<Embed>, testInputs: seq<TestInput>, fixtures: seq<Fixture>,
    testGuests: map<Pkg, TestGuest>, featureTests: set<Pkg>, postgresSteps: map<string, Pkg>,
    e2eFullPackages: set<Pkg>, e2eFullPaths: seq<string>,
    runtimeSmoke: set<string>, runtimeSmokePackages: set<Pkg>,
    platformJobs: map<Check, set<Pkg>>,
    gatewayPackages: set<Pkg>, gatewayPaths: seq<string>, windowsPaths: seq<string>,
    releaseShipped: set<Pkg>, releaseFullPackages: set<Pkg>, releaseFullPaths: seq<string>)

  const FULL_SUITE_PATHS: set<Path> := {
    "Cargo.toml", "Cargo.lock", "rust-toolchain.toml", "scripts/ci-plan.py", "scripts/ci-exec.py",
    "scripts/check-store-free-hosts.sh", "scripts/generate-api-docs.sh" }
  const FULL_SUITE_PREFIXES: seq<string> := [".cargo/", ".github/workflows/", "scripts/ci_plan/", "fuzz/"]
  const ABI_SYNC_PATHS: set<Path> := {"scripts/gen-plugin-abi.py", "scripts/sync-workerd-pin.py", "workerd.pin.json"}
  const KNOWN_TOP_LEVEL: set<string> := {
    ".cargo", ".cursor", ".devcontainer", ".github", ".vscode", "BookclerkFiles", "assets", "config", "crates",
    "docs", "examples", "fuzz", "packages", "scripts", "third_party", "ui", "AGENTS.md", "Cargo.lock", "Cargo.toml",
    "CHANGELOG.md", "CODE_OF_CONDUCT.md", "CONTRIBUTING.md", "LICENSE", "LICENSE-APACHE", "LICENSE-MIT", "README.md",
    "SECURITY.md", "deny.toml", "osv-scanner.toml", "rust-toolchain.toml", "rustfmt.toml", "workerd.pin.json",
    ".gitattributes", ".gitignore", ".gitmodules" }

  const PUBLISH_CRATES: set<Pkg> := {"bookclerk-plugin-abi", "bookclerk-plugin-manifest", "bookclerk-plugin-sdk"}
  const E2E_PACKAGE: Pkg := "bookclerk-plugin-e2e"
  const SDK_PACKAGE: Pkg := "bookclerk-plugin-sdk"
  const STORE_FREE_PACKAGES: set<Pkg> := {"bookclerk-cli", "bookclerkd", "bookclerk-plugin-host"}
  const UI_HOST_PACKAGE: Pkg := "bookclerkd"

  /** The enrolled checks; `Unknown` is any other name a fixture may give. */
  datatype Check =
    | Ui | PluginSdkAbi | PythonSdk | AuthorSurface | Fmt | Clippy | ClippyPublish | ApiDocs | Doctest
    | StoreFree | RustTest | E2e | Release | Confinement | NativeGateway | Tray | Postgres | WindowsCluster
    | Unknown(name: string)

  const CHECK_JOB_CHECKS: set<Check> := {
    Ui, PluginSdkAbi, PythonSdk, AuthorSurface, Fmt, Clippy, ClippyPublish, ApiDocs, Doctest, StoreFree, RustTest, E2e }
  const JOB_CHECKS: map<string, set<Check>> := map[
    "check" := CHECK_JOB_CHECKS, "release" := {Release}, "confinement" := {Confinement},
    "native-gateway" := {NativeGateway}, "tray" := {Tray}, "postgres" := {Postgres},
    "windows-cluster" := {WindowsCluster} ]
  const ALL_CHECKS: set<Check> := CHECK_JOB_CHECKS
    + {Release, Confinement, NativeGateway, Tray, Postgres, WindowsCluster}

  // ---- stage 1: what one path touches ----

  datatype Touch = Touch(
    full: bool, seeds: seq<Seed>, inputs: seq<(Pkg, Kind)>, fixtureChecks: seq<Check>, e2eIds: set<string>,
    e2eDirect: bool, ui: bool, ts: bool, py: bool, abi: bool,
    e2eFull: bool, releaseFull: bool, gateway: bool, windows: bool)

  const NOTHING := Touch(false, [], [], [], {}, false, false, false, false, false, false, false, false, false)

  type Glob = (Path, string) -> bool

  predicate AnyGlob(glob: Glob, path: Path, patterns: seq<string>) {
    exists i :: 0 <= i < |patterns| && glob(path, patterns[i])
  }

  predicate AnyPrefix(path: Path, prefixes: seq<string>) {
    exists i :: 0 <= i < |prefixes| && prefixes[i] <= path
  }

  predicate EndsWith(s: string, tail: string) {
    |tail| <= |s| && s[|s| - |tail|..] == tail
  }

  /** The first fixture whose patterns match. */
  function FixtureFor(glob: Glob, path: Path, fixtures: seq<Fixture>): Option<Fixture> {
    if fixtures == [] then None
    else if AnyGlob(glob, path, fixtures[0].patterns) then Some(fixtures[0])
    else FixtureFor(glob, path, fixtures[1..])
  }

  function EmbedSeeds(path: Path, embeds: seq<Embed>): seq<Seed> {
    if embeds == [] then []
    else (if path in embeds[0].paths then [(embeds[0].package, Embeds(path))] else []) + EmbedSeeds(path, embeds[1..])
  }

  function DeclaredInputs(glob: Glob, path: Path, inputs: seq<TestInput>): seq<(Pkg, Kind)> {
    if inputs == [] then []
    else (if AnyGlob(glob, path, inputs[0].patterns) then [(inputs[0].package, DeclaredKind)] else [])
         + DeclaredInputs(glob, path, inputs[1..])
  }

  /** The first two components of a path. */
  function GuestDir(path: Path): string {
    var parts := Keys.Split(path, c => c == '/');
    if |parts| == 1 then parts[0] else parts[0] + "/" + parts[1]
  }

  function TouchOf(index: Index, rel: Relations, guests: map<string, Guest>, glob: Glob, path: Path): Touch {
    var top := Keys.Split(path, c => c == '/')[0];
    var pkg := index.owner(path);
    if path in FULL_SUITE_PATHS || AnyPrefix(path, FULL_SUITE_PREFIXES) then NOTHING.(full := true)
    else if top !in KNOWN_TOP_LEVEL then NOTHING.(full := true)
    else if EndsWith(path, "Cargo.toml") && pkg.None? then NOTHING.(full := true)
    else
      var fixture := FixtureFor(glob, path, rel.fixtures);
      var owned := fixture.None? && pkg.Some?;
      var smoke := AnyGlob(glob, path, rel.gatewayPaths);
      var kind := if owned then index.inputKind(path, pkg.value) else None;
      var embeds := EmbedSeeds(path, rel.embeds);
      var declared := DeclaredInputs(glob, path, rel.testInputs);
      var workerd := exists i :: 0 <= i < |rel.embeds| && path in rel.embeds[i].paths && rel.embeds[i].workerdE2e;
      var inGuestDir := pkg.None? && "examples/plugins-" <= path;
      var guestIds := set id | id in guests && inGuestDir && guests[id].relDir == GuestDir(path);
      var classified := fixture.Some? || owned || embeds != [] || declared != []
        || "ui/" <= path || "packages/plugin-sdk/" <= path || "packages/plugin-sdk-python/" <= path
        || path in ABI_SYNC_PATHS || "docs/" <= path || guestIds != {};
      Touch(
        !classified,
        (if owned && kind.None? then [(pkg.value, if smoke then SmokeInput(path) else Changed(path))] else []) + embeds,
        (if kind.Some? then [(pkg.value, kind.value)] else []) + declared,
        if fixture.Some? then fixture.value.checks else [],
        (set id | id in guests && workerd && guests[id].runtime == "workerd") + guestIds,
        owned && pkg.value == E2E_PACKAGE && !smoke,
        "ui/" <= path, "packages/plugin-sdk/" <= path, "packages/plugin-sdk-python/" <= path, path in ABI_SYNC_PATHS,
        AnyGlob(glob, path, rel.e2eFullPaths), AnyGlob(glob, path, rel.releaseFullPaths), smoke,
        AnyGlob(glob, path, rel.windowsPaths))
  }

  function Merge(a: Touch, b: Touch): Touch {
    Touch(
      a.full || b.full, a.seeds + b.seeds, a.inputs + b.inputs, a.fixtureChecks + b.fixtureChecks, a.e2eIds + b.e2eIds,
      a.e2eDirect || b.e2eDirect, a.ui || b.ui, a.ts || b.ts, a.py || b.py, a.abi || b.abi,
      a.e2eFull || b.e2eFull, a.releaseFull || b.releaseFull, a.gateway || b.gateway, a.windows || b.windows)
  }

  // ---- what the planner works with ----

  /** `touch` is the classification of a path; `EnvOf` builds it from the files. */
  datatype Env = Env(index: Index, rel: Relations, guests: map<string, Guest>, touch: Path -> Touch)

  function EnvOf(index: Index, rel: Relations, guests: map<string, Guest>, glob: Glob): Env {
    Env(index, rel, guests, path => TouchOf(index, rel, guests, glob, path))
  }

  ghost predicate TouchOk(index: Index, t: Touch) {
    && (forall s :: s in t.seeds ==> s.0 in index.info)
    && (forall i :: i in t.inputs ==> i.0 in index.info)
    && (forall k :: k in t.fixtureChecks ==> !k.Unknown?)
  }

  ghost predicate EdgesOk(edges: Edges, names: set<Pkg>) {
    forall p, q :: p in edges && q in edges[p] ==> q in names
  }

  ghost predicate EnvOk(env: Env) {
    && EdgesOk(env.index.compile, env.index.info.Keys) && EdgesOk(env.index.dev, env.index.info.Keys)
    && env.rel.testGuests.Keys <= env.index.info.Keys
    && (forall path :: TouchOk(env.index, env.touch(path)))
  }

  /** `validate_relations` found nothing: every package and check it names exists. */
  predicate Validated(rel: Relations, index: Index) {
    && (forall e :: e in rel.embeds ==> e.package in index.info)
    && (forall t :: t in rel.testInputs ==> t.package in index.info)
    && (forall f, k :: f in rel.fixtures && k in f.checks ==> !k.Unknown?)
    && (forall p :: p in rel.testGuests ==> p in index.info)
  }

  lemma {:induction false} FixtureIsListed(glob: Glob, path: Path, fixtures: seq<Fixture>)
    ensures FixtureFor(glob, path, fixtures).Some? ==> FixtureFor(glob, path, fixtures).value in fixtures
  {
    if fixtures != [] {
      FixtureIsListed(glob, path, fixtures[1..]);
    }
  }

  lemma {:induction false} EmbedSeedsKnown(path: Path, embeds: seq<Embed>, index: Index)
    requires forall e :: e in embeds ==> e.package in index.info
    ensures forall s :: s in EmbedSeeds(path, embeds) ==> s.0 in index.info
  {
    if embeds != [] {
      EmbedSeedsKnown(path, embeds[1..], index);
    }
  }

  lemma {:induction false} DeclaredInputsKnown(glob: Glob, path: Path, inputs: seq<TestInput>, index: Index)
    requires forall t :: t in inputs ==> t.package in index.info
    ensures forall i :: i in DeclaredInputs(glob, path, inputs) ==> i.0 in index.info
  {
    if inputs != [] {
      DeclaredInputsKnown(glob, path, inputs[1..], index);
    }
  }

  /** Validated relations over real Cargo metadata give a usable environment. */
  lemma ValidatedIsOk(index: Index, rel: Relations, guests: map<string, Guest>, glob: Glob)
    requires Validated(rel, index)
    requires EdgesOk(index.compile, index.info.Keys) && EdgesOk(index.dev, index.info.Keys)
    requires forall path :: index.owner(path).Some? ==> index.owner(path).value in index.info
    ensures EnvOk(EnvOf(index, rel, guests, glob))
  {
    forall path
      ensures TouchOk(index, TouchOf(index, rel, guests, glob, path))
    {
      FixtureIsListed(glob, path, rel.fixtures);
      EmbedSeedsKnown(path, rel.embeds, index);
      DeclaredInputsKnown(glob, path, rel.testInputs, index);
    }
  }

  // ---- the survey of all paths ----

  function SurveyOf(env: Env, paths: seq<Path>): Touch {
    if paths == [] then NOTHING else Merge(SurveyOf(env, paths[..|paths| - 1]), env.touch(paths[|paths| - 1]))
  }

  method Survey(env: Env, paths: seq<Path>) returns (t: Touch)
    ensures t == SurveyOf(env, paths)
  {
    t := NOTHING;
    for i := 0 to |paths|
      invariant t == SurveyOf(env, paths[..i])
    {
      assert paths[..i + 1][..i] == paths[..i];
      t := Merge(t, env.touch(paths[i]));
    }
    assert paths[..|paths|] == paths;
  }

  /** Everything `a` touches, `b` touches. */
  ghost predicate Within(a: Touch, b: Touch) {
    && (a.full ==> b.full)
    && (forall x :: x in a.seeds ==> x in b.seeds) && (forall x :: x in a.inputs ==> x in b.inputs)
    && (forall x :: x in a.fixtureChecks ==> x in b.fixtureChecks) && a.e2eIds <= b.e2eIds
    && (a.e2eDirect ==> b.e2eDirect) && (a.ui ==> b.ui) && (a.ts ==> b.ts) && (a.py ==> b.py) && (a.abi ==> b.abi)
    && (a.e2eFull ==> b.e2eFull) && (a.releaseFull ==> b.releaseFull) && (a.gateway ==> b.gateway)
    && (a.windows ==> b.windows)
  }

  lemma {:induction false} PathIsWithin(env: Env, paths: seq<Path>, path: Path)
    requires path in paths
    ensures Within(env.touch(path), SurveyOf(env, paths))
  {
    var n := |paths| - 1;
    if paths[n] != path {
      assert paths == paths[..n] + [paths[n]];
      PathIsWithin(env, paths[..n], path);
    }
  }

  lemma {:induction false} SurveyIsLeast(env: Env, paths: seq<Path>, t: Touch)
    requires forall p :: p in paths ==> Within(env.touch(p), t)
    ensures Within(SurveyOf(env, paths), t)
  {
    if paths != [] {
      SurveyIsLeast(env, paths[..|paths| - 1], t);
      assert Within(env.touch(paths[|paths| - 1]), t);
    }
  }

  lemma SurveyIsMonotone(env: Env, some: seq<Path>, more: seq<Path>)
    requires forall p :: p in some ==> p in more
    ensures Within(SurveyOf(env, some), SurveyOf(env, more))
  {
    forall p | p in some ensures Within(env.touch(p), SurveyOf(env, more)) {
      PathIsWithin(env, more, p);
    }
    SurveyIsLeast(env, some, SurveyOf(env, more));
  }

  lemma {:induction false} SurveyOk(env: Env, paths: seq<Path>)
    requires EnvOk(env)
    ensures TouchOk(env.index, SurveyOf(env, paths))
  {
    if paths != [] {
      SurveyOk(env, paths[..|paths| - 1]);
      assert TouchOk(env.index, env.touch(paths[|paths| - 1]));
    }
  }

  // ---- stage 1: packages ----

  datatype Flags = Flags(compiled: bool, tests: bool, unit: bool, benches: bool, examples: bool, doctest: bool, docs: bool)

  const NO_FLAGS := Flags(false, false, false, false, false, false, false)

  function Join(a: Flags, b: Flags): Flags {
    Flags(a.compiled || b.compiled, a.tests || b.tests, a.unit || b.unit, a.benches || b.benches,
          a.examples || b.examples, a.doctest || b.doctest, a.docs || b.docs)
  }

  predicate Leq(a: Flags, b: Flags) {
    Join(a, b) == b
  }

  function CompiledFlags(info: PackageInfo): Flags {
    Flags(true, true, true, info.benches, info.examples, info.doctest, true)
  }

  /** A dev edge re-runs the consumer's tests, benches, examples and doctests. */
  function DevFlags(info: PackageInfo): Flags {
    Flags(false, true, true, info.benches, info.examples, info.doctest, false)
  }

  const LAUNCH_FLAGS := NO_FLAGS.(tests := true, unit := true)

  function KindFlags(kind: Kind): Flags {
    match kind
    case TestsKind => NO_FLAGS.(tests := true)
    case DeclaredKind => NO_FLAGS.(tests := true, unit := true)
    case BenchesKind => NO_FLAGS.(benches := true)
    case ExamplesKind => NO_FLAGS.(examples := true)
  }

  predicate DevHit(env: Env, c: set<Pkg>, p: Pkg) {
    p !in c && exists n :: n in c && p in Consumers(env.index.dev, n)
  }

  predicate LaunchHit(env: Env, c: set<Pkg>, p: Pkg) {
    p !in c && p in env.rel.testGuests && exists g :: g in env.rel.testGuests[p].build && g in c
  }

  /** One reason to raise a package's flags. */
  predicate Raises(env: Env, t: Touch, c: set<Pkg>, p: Pkg, f: Flags) {
    p in env.index.info &&
    (|| (p in c && f == CompiledFlags(env.index.info[p]))
     || (DevHit(env, c, p) && f == DevFlags(env.index.info[p]))
     || (LaunchHit(env, c, p) && f == LAUNCH_FLAGS)
     || (exists k :: (p, k) in t.inputs && f == KindFlags(k)))
  }

  /** Exactly the raised packages, each with exactly the flags some reason raises. */
  ghost predicate Selects(env: Env, t: Touch, c: set<Pkg>, sel: map<Pkg, Flags>) {
    && (forall p :: p in sel <==> exists f :: Raises(env, t, c, p, f))
    && (forall p, top :: p in sel ==> (Leq(sel[p], top) <==> AllBelow(env, t, c, p, top)))
  }

  ghost predicate AllBelow(env: Env, t: Touch, c: set<Pkg>, p: Pkg, top: Flags) {
    forall f :: Raises(env, t, c, p, f) ==> Leq(f, top)
  }

  function Raised(sel: map<Pkg, Flags>, p: Pkg, f: Flags): map<Pkg, Flags> {
    sel[p := Join(if p in sel then sel[p] else NO_FLAGS, f)]
  }

  ghost predicate DoneBelow(done: set<(Pkg, Flags)>, p: Pkg, top: Flags) {
    forall f :: (p, f) in done ==> Leq(f, top)
  }

  /** `sel` is the join of the reasons `done`. */
  ghost predicate JoinOf(sel: map<Pkg, Flags>, done: set<(Pkg, Flags)>) {
    && (forall p :: p in sel <==> exists f :: (p, f) in done)
    && (forall p, top :: p in sel ==> (Leq(sel[p], top) <==> DoneBelow(done, p, top)))
  }

  lemma JoinLeq(a: Flags, b: Flags, top: Flags)
    ensures Leq(Join(a, b), top) <==> Leq(a, top) && Leq(b, top)
    ensures Leq(NO_FLAGS, top)
  {}

  lemma RaisedBelow(sel: map<Pkg, Flags>, done: set<(Pkg, Flags)>, p: Pkg, f: Flags, q: Pkg, top: Flags)
    requires JoinOf(sel, done) && q in Raised(sel, p, f)
    ensures Leq(Raised(sel, p, f)[q], top) <==> DoneBelow(done + {(p, f)}, q, top)
  {
    OneMoreBelow(done, p, f, q, top);
    var was := if q in sel then sel[q] else NO_FLAGS;
    JoinLeq(was, f, top);
    assert Leq(was, top) <==> DoneBelow(done, q, top);
  }

  lemma RaisedKeys(sel: map<Pkg, Flags>, done: set<(Pkg, Flags)>, p: Pkg, f: Flags, q: Pkg)
    requires JoinOf(sel, done)
    ensures q in Raised(sel, p, f) <==> exists g :: (q, g) in done + {(p, f)}
  {
    assert (p, f) in done + {(p, f)};
    if q in sel {
      var g :| (q, g) in done;
      assert (q, g) in done + {(p, f)};
    }
  }

  lemma RaisedJoin(sel: map<Pkg, Flags>, done: set<(Pkg, Flags)>, p: Pkg, f: Flags)
    requires JoinOf(sel, done)
    ensures JoinOf(Raised(sel, p, f), done + {(p, f)})
  {
    forall q ensures q in Raised(sel, p, f) <==> exists g :: (q, g) in done + {(p, f)} {
      RaisedKeys(sel, done, p, f, q);
    }
    forall q, top | q in Raised(sel, p, f)
      ensures Leq(Raised(sel, p, f)[q], top) <==> DoneBelow(done + {(p, f)}, q, top)
    {
      RaisedBelow(sel, done, p, f, q, top);
    }
  }

  lemma OneMoreBelow(done: set<(Pkg, Flags)>, p: Pkg, f: Flags, q: Pkg, top: Flags)
    ensures DoneBelow(done + {(p, f)}, q, top) <==> DoneBelow(done, q, top) && (q == p ==> Leq(f, top))
  {
    var done' := done + {(p, f)};
    assert (p, f) in done';
    assert forall g :: (q, g) in done ==> (q, g) in done';
  }

  /** The four selection loops of `build_plan`. */
  method SelectPackages(env: Env, t: Touch, compiled: set<Pkg>) returns (sel: map<Pkg, Flags>)
    requires EnvOk(env) && TouchOk(env.index, t) && compiled <= env.index.info.Keys
    ensures Selects(env, t, compiled, sel)
  {
    sel := map[];
    ghost var done: set<(Pkg, Flags)> := {};
    var todo := compiled;
    while todo != {}
      invariant todo <= compiled && JoinOf(sel, done)
      invariant forall p, f :: (p, f) in done <==> p in compiled - todo && f == CompiledFlags(env.index.info[p])
      decreases todo
    {
      var name :| name in todo;
      RaisedJoin(sel, done, name, CompiledFlags(env.index.info[name]));
      sel, done := Raised(sel, name, CompiledFlags(env.index.info[name])), done + {(name, CompiledFlags(env.index.info[name]))};
      todo := todo - {name};
    }
    ghost var d1 := done;
    todo := compiled;
    while todo != {}
      invariant todo <= compiled && JoinOf(sel, done)
      invariant forall p, f :: (p, f) in done <==> (p, f) in d1 || DevDone(env, compiled, compiled - todo, p, f)
      decreases todo
    {
      var name :| name in todo;
      sel, done := DevLoop(env, compiled, name, Consumers(env.index.dev, name), sel, done);
      todo := todo - {name};
    }
    ghost var d2 := done;
    sel, done := LaunchLoop(env, compiled, sel, done);
    ghost var d3 := done;
    for i := 0 to |t.inputs|
      invariant JoinOf(sel, done)
      invariant forall p, f :: (p, f) in done <==> (p, f) in d3 || InputDone(t.inputs[..i], p, f)
    {
      var (name, kind) := t.inputs[i];
      RaisedJoin(sel, done, name, KindFlags(kind));
      sel, done := Raised(sel, name, KindFlags(kind)), done + {(name, KindFlags(kind))};
      InputStep(t.inputs, i);
    }
    assert t.inputs[..|t.inputs|] == t.inputs;
    forall p, f ensures (p, f) in done <==> Raises(env, t, compiled, p, f) {
      AllDone(env, t, compiled, p, f);
    }
    JoinIsSelection(env, t, compiled, sel, done);
  }

  ghost predicate DevDone(env: Env, c: set<Pkg>, names: set<Pkg>, p: Pkg, f: Flags) {
    p !in c && p in env.index.info && f == DevFlags(env.index.info[p]) && exists n :: n in names && p in Consumers(env.index.dev, n)
  }

  ghost predicate InputDone(inputs: seq<(Pkg, Kind)>, p: Pkg, f: Flags) {
    exists k :: (p, k) in inputs && f == KindFlags(k)
  }

  lemma InputStep(inputs: seq<(Pkg, Kind)>, i: nat)
    requires i < |inputs|
    ensures forall p, f :: InputDone(inputs[..i + 1], p, f) <==>
              InputDone(inputs[..i], p, f) || (p, f) == (inputs[i].0, KindFlags(inputs[i].1))
  {
    assert inputs[..i + 1] == inputs[..i] + [inputs[i]];
    forall p, f | InputDone(inputs[..i], p, f) ensures InputDone(inputs[..i + 1], p, f) {
      var k :| (p, k) in inputs[..i] && f == KindFlags(k);
      assert (p, k) in inputs[..i + 1];
    }
    assert (inputs[i].0, inputs[i].1) in inputs[..i + 1];
  }

  lemma AllDone(env: Env, t: Touch, c: set<Pkg>, p: Pkg, f: Flags)
    requires EnvOk(env) && TouchOk(env.index, t) && c <= env.index.info.Keys
    ensures Raises(env, t, c, p, f) <==>
            || (p in c && f == CompiledFlags(env.index.info[p]))
            || DevDone(env, c, c, p, f)
            || (LaunchHit(env, c, p) && f == LAUNCH_FLAGS)
            || InputDone(t.inputs, p, f)
  {
    if InputDone(t.inputs, p, f) {
      var k :| (p, k) in t.inputs && f == KindFlags(k);
      assert (p, k).0 in env.index.info;
    }
  }

  lemma JoinIsSelection(env: Env, t: Touch, c: set<Pkg>, sel: map<Pkg, Flags>, done: set<(Pkg, Flags)>)
    requires JoinOf(sel, done) && forall p, f :: (p, f) in done <==> Raises(env, t, c, p, f)
    ensures Selects(env, t, c, sel)
  {
    forall p, top
      ensures DoneBelow(done, p, top) <==> AllBelow(env, t, c, p, top)
    {
      assert forall f :: (p, f) in done <==> Raises(env, t, c, p, f);
    }
    forall p | p in sel ensures exists f :: Raises(env, t, c, p, f) {
      var f :| (p, f) in done;
      assert Raises(env, t, c, p, f);
    }
  }

  method DevLoop(env: Env, compiled: set<Pkg>, name: Pkg, consumers: seq<Pkg>, sel: map<Pkg, Flags>, ghost done: set<(Pkg, Flags)>)
      returns (sel': map<Pkg, Flags>, ghost done': set<(Pkg, Flags)>)
    requires JoinOf(sel, done) && forall q :: q in consumers ==> q in env.index.info
    ensures JoinOf(sel', done')
    ensures forall p, f :: (p, f) in done' <==>
              (p, f) in done || (p !in compiled && p in consumers && p in env.index.info && f == DevFlags(env.index.info[p]))
  {
    sel', done' := sel, done;
    for i := 0 to |consumers|
      invariant JoinOf(sel', done')
      invariant forall p, f :: (p, f) in done' <==>
                  (p, f) in done || (p !in compiled && p in consumers[..i] && p in env.index.info && f == DevFlags(env.index.info[p]))
    {
      var consumer := consumers[i];
      assert consumers[..i + 1] == consumers[..i] + [consumer] && consumer in consumers;
      if consumer !in compiled {
        var f := DevFlags(env.index.info[consumer]);
        RaisedJoin(sel', done', consumer, f);
        sel', done' := Raised(sel', consumer, f), done' + {(consumer, f)};
      }
    }
    assert consumers[..|consumers|] == consumers;
  }

  method LaunchLoop(env: Env, compiled: set<Pkg>, sel: map<Pkg, Flags>, ghost done: set<(Pkg, Flags)>)
      returns (sel': map<Pkg, Flags>, ghost done': set<(Pkg, Flags)>)
    requires JoinOf(sel, done)
    ensures JoinOf(sel', done')
    ensures forall p, f :: (p, f) in done' <==> (p, f) in done || (LaunchHit(env, compiled, p) && f == LAUNCH_FLAGS)
  {
    sel', done' := sel, done;
    var todo := env.rel.testGuests.Keys;
    while todo != {}
      invariant todo <= env.rel.testGuests.Keys && JoinOf(sel', done')
      invariant forall p, f :: (p, f) in done' <==> (p, f) in done || (p !in todo && LaunchHit(env, compiled, p) && f == LAUNCH_FLAGS)
      decreases todo
    {
      var consumer :| consumer in todo;
      var launched := set g | g in env.rel.testGuests[consumer].build && g in compiled;
      if launched != {} && consumer !in compiled {
        RaisedJoin(sel', done', consumer, LAUNCH_FLAGS);
        sel', done' := Raised(sel', consumer, LAUNCH_FLAGS), done' + {(consumer, LAUNCH_FLAGS)};
      }
      LaunchedExactly(env, compiled, consumer, launched);
      todo := todo - {consumer};
    }
  }

  lemma LaunchedExactly(env: Env, c: set<Pkg>, p: Pkg, launched: set<Pkg>)
    requires p in env.rel.testGuests && launched == set g | g in env.rel.testGuests[p].build && g in c
    ensures LaunchHit(env, c, p) <==> launched != {} && p !in c
  {
    if launched != {} {
      var g :| g in launched;
      assert g in env.rel.testGuests[p].build && g in c;
    } else {
      forall g | g in env.rel.testGuests[p].build && g in c ensures g in launched {}
    }
  }
}
