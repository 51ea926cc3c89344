/** What each planned check asks of a clean runner, said of the plan, the workspace
    and the guests alone, and what that means for a change of a guest. */
module CiNeeds {
  import opened Basics
  import opened CiClosure
  import opened CiPlan
  import opened CiChecks
  import opened CiPrereqs
  import CiSelect
  import Keys

  // ---- the specification ----

  /** The rust_test check runs the tests of package `t`. */
  predicate RunsTestsOf(env: Env, plan: Plan, t: Pkg) {
    if plan.full then (t in env.index.info && t != "bookclerk-plugin-e2e") || t in env.rel.featureTests
    else t in plan.packages && plan.packages[t].tests && t != "bookclerk-plugin-e2e"
  }

  /** Guest `id` takes part in an end-to-end run: all in a full one, otherwise the
      named ones and the platform. */
  predicate InScope(env: Env, scope: Scope, id: string) {
    id in env.guests && (scope.FullScope? || id in scope.ids || env.guests[id].tier == "platform")
  }

  /** An executable that a test of a tested package launches. */
  ghost predicate LaunchedByTest(env: Env, plan: Plan, p: Pkg) {
    exists t :: RunsTestsOf(env, plan, t) && t in env.rel.testGuests && p in env.rel.testGuests[t].build
  }

  ghost predicate NativeInScope(env: Env, scope: Scope, p: Pkg) {
    exists id :: InScope(env, scope, id) && env.guests[id].runtime != "workerd" && env.guests[id].package == Some(p)
  }

  ghost predicate BuiltFor(env: Env, plan: Plan, k: Check, p: Pkg) {
    match k
    case RustTest => LaunchedByTest(env, plan, p)
    case E2e => plan.scope.Some? && (p in {"bookclerk-jail", "bookclerk-workerd"} || NativeInScope(env, plan.scope.value, p))
    case Postgres =>
      "rpc_like" in plan.steps && p in {"bookclerk-plugin-database-postgres", "bookclerk-workerd", "bookclerk-jail"}
    case NativeGateway => p in {"bookclerk-jail", "bookclerk-workerd"}
    case WindowsCluster => p in {"bookclerk-plugin-database-sqlite", "bookclerk-jail", "bookclerk-workerd"}
    case _ => false
  }

  ghost predicate WorkerdFor(env: Env, plan: Plan, k: Check) {
    match k
    case RustTest => exists t :: RunsTestsOf(env, plan, t) && t in env.rel.testGuests && env.rel.testGuests[t].ensureWorkerd
    case E2e => plan.scope.Some?
    case Postgres => "rpc_like" in plan.steps
    case NativeGateway => true
    case WindowsCluster => true
    case _ => false
  }

  // ---- what the items say ----

  predicate Has(items: seq<Prereq>, kind: PrereqKind) {
    exists i :: 0 <= i < |items| && items[i].kind == kind
  }

  predicate Asks(items: seq<Prereq>, kind: PrereqKind, name: string) {
    exists i :: 0 <= i < |items| && items[i].kind == kind && name in items[i].names
  }

  predicate StagesAll(items: seq<Prereq>) {
    exists i :: 0 <= i < |items| && items[i].kind == StagePlugins && items[i].all
  }

  /** Builds come first and staging last. */
  predicate InTurn(items: seq<Prereq>) {
    forall i, j :: 0 <= i < j < |items| ==>
      && items[j].kind != Build && items[i].kind != StagePlugins
      && !(items[i].kind == InstallPlatform && items[j].kind == EnsureWorkerd) && items[i].kind != items[j].kind
  }

  lemma {:induction false} FoundAt(items: seq<Prereq>, kind: PrereqKind, i: nat)
    requires i < |items| && items[i].kind == kind && Ordered(items)
    ensures Find(items, kind) == Some(items[i])
  {
    if i > 0 {
      assert items[0].kind != kind;
      FoundAt(items[1..], kind, i - 1);
    }
  }

  lemma {:induction false} FoundSomewhere(items: seq<Prereq>, kind: PrereqKind) returns (i: nat)
    requires Find(items, kind).Some?
    ensures i < |items| && items[i].kind == kind && Find(items, kind) == Some(items[i])
  {
    if items[0].kind == kind {
      i := 0;
    } else {
      i := FoundSomewhere(items[1..], kind);
      i := i + 1;
    }
  }

  /** The items as the runner's needs tell them. */
  lemma AsksByNeed(items: seq<Prereq>, kind: PrereqKind, name: string)
    requires Ordered(items)
    ensures var need := NeedOf(Find(items, kind));
            && (Has(items, kind) <==> need.Some?)
            && (Asks(items, kind, name) <==> need.Some? && name in need.value.names)
            && (kind == StagePlugins ==> (StagesAll(items) <==> need.Some? && need.value.all))
  {
    if Find(items, kind).Some? {
      var i := FoundSomewhere(items, kind);
    }
    if i :| 0 <= i < |items| && items[i].kind == kind {
      FoundAt(items, kind, i);
    }
  }

  // ---- the needs, element by element ----

  lemma TestedExactly(env: Env, plan: Plan, t: Pkg)
    ensures t in TestedPackages(env, plan) <==> RunsTestsOf(env, plan, t)
  {}

  lemma GuestBuildsExactly(env: Env, plan: Plan, p: Pkg)
    ensures p in GuestBuilds(env, TestedPackages(env, plan)) <==> LaunchedByTest(env, plan, p)
  {
    var tested := TestedPackages(env, plan);
    if p in GuestBuilds(env, tested) {
      var t :| t in tested && t in env.rel.testGuests && p in env.rel.testGuests[t].build;
      TestedExactly(env, plan, t);
    }
    if LaunchedByTest(env, plan, p) {
      var t :| RunsTestsOf(env, plan, t) && t in env.rel.testGuests && p in env.rel.testGuests[t].build;
      TestedExactly(env, plan, t);
    }
  }

  lemma SpawnsExactly(env: Env, plan: Plan)
    ensures SpawnsWorkerd(env, TestedPackages(env, plan)) <==> WorkerdFor(env, plan, RustTest)
  {
    if SpawnsWorkerd(env, TestedPackages(env, plan)) {
      var t :| t in TestedPackages(env, plan) && t in env.rel.testGuests && env.rel.testGuests[t].ensureWorkerd;
      TestedExactly(env, plan, t);
    }
    if WorkerdFor(env, plan, RustTest) {
      var t :| RunsTestsOf(env, plan, t) && t in env.rel.testGuests && env.rel.testGuests[t].ensureWorkerd;
      TestedExactly(env, plan, t);
    }
  }

  lemma ScopeExactly(env: Env, scope: Scope, id: string)
    ensures id in ScopeIds(env, scope) && id in env.guests <==> InScope(env, scope, id)
  {}

  lemma NativeExactly(env: Env, scope: Scope, p: Pkg)
    ensures p in NativePackages(env, ScopeIds(env, scope)) <==> NativeInScope(env, scope, p)
  {
    var ids := ScopeIds(env, scope);
    if p in NativePackages(env, ids) {
      var id :| id in ids && id in env.guests && env.guests[id].runtime != "workerd" && env.guests[id].package == Some(p);
      ScopeExactly(env, scope, id);
    }
    if NativeInScope(env, scope, p) {
      var id :| InScope(env, scope, id) && env.guests[id].runtime != "workerd" && env.guests[id].package == Some(p);
      ScopeExactly(env, scope, id);
      assert env.guests[id].package.value in NativePackages(env, ids);
    }
  }

  lemma BuildNeeded(env: Env, plan: Plan, k: Check, p: Pkg)
    requires k in plan.checks
    ensures var need := Needed(env, plan, k, Build); (need.Some? && p in need.value.names) <==> BuiltFor(env, plan, k, p)
  {
    if k == RustTest {
      GuestBuildsExactly(env, plan, p);
    } else if k == E2e && plan.scope.Some? {
      NativeExactly(env, plan.scope.value, p);
    }
  }

  lemma StageNeeded(env: Env, plan: Plan, k: Check, id: string)
    requires k in plan.checks
    ensures var need := Needed(env, plan, k, StagePlugins);
            && (need.Some? <==> k == E2e && plan.scope.Some?)
            && (need.Some? ==>
                  && (need.value.all <==> plan.scope == Some(FullScope))
                  && (id in need.value.names <==>
                        plan.scope != Some(FullScope) && InScope(env, plan.scope.value, id) && env.guests[id].tier != "platform"))
  {
    if k == E2e && plan.scope.Some? {
      ScopeExactly(env, plan.scope.value, id);
    }
  }

  /** The items of a check hold what the check needs, and nothing else. */
  ghost predicate Provides(env: Env, plan: Plan, k: Check, items: seq<Prereq>) {
    Ordered(items) && forall kind :: NeedOf(Find(items, kind)) == Needed(env, plan, k, kind)
  }

  /** For every planned check: which packages are built before it, whether it gets
      pinned workerd and the platform, which guests are staged, and in which order. */
  lemma NeedsExactly(env: Env, plan: Plan, k: Check, items: seq<Prereq>, name: string)
    requires k in plan.checks && Provides(env, plan, k, items)
    ensures Asks(items, Build, name) <==> BuiltFor(env, plan, k, name)
    ensures Has(items, EnsureWorkerd) <==> WorkerdFor(env, plan, k)
    ensures Has(items, InstallPlatform) <==> k == E2e && plan.scope.Some?
    ensures StagesAll(items) <==> k == E2e && plan.scope == Some(FullScope)
    ensures Asks(items, StagePlugins, name) <==>
              && k == E2e && plan.scope.Some? && plan.scope != Some(FullScope)
              && InScope(env, plan.scope.value, name) && env.guests[name].tier != "platform"
    ensures InTurn(items)
  {
    AsksByNeed(items, Build, name);
    AsksByNeed(items, EnsureWorkerd, name);
    AsksByNeed(items, InstallPlatform, name);
    AsksByNeed(items, StagePlugins, name);
    BuildNeeded(env, plan, k, name);
    StageNeeded(env, plan, k, name);
    SpawnsExactly(env, plan);
    assert NeedOf(Find(items, Build)) == Needed(env, plan, k, Build);
    assert NeedOf(Find(items, EnsureWorkerd)) == Needed(env, plan, k, EnsureWorkerd);
    assert NeedOf(Find(items, InstallPlatform)) == Needed(env, plan, k, InstallPlatform);
    assert NeedOf(Find(items, StagePlugins)) == Needed(env, plan, k, StagePlugins);
  }

  // ---- from a changed path to a staged guest ----

  /** When a change compiles the package of a guest, the end-to-end check is planned
      with that guest in its scope: a native guest is built for it, and one outside
      the platform is staged. */
  lemma GuestChangeIsStaged(w: CiSelect.Repo, paths: seq<Path>, plan: Plan, id: string, q: Pkg, items: seq<Prereq>)
    requires CiSelect.RepoOk(w) && paths != [] && Plans(CiSelect.EnvFor(w), paths, plan)
    requires id in w.guests && w.guests[id].package == Some(q) && CiSelect.Compiled(w, paths, q)
    requires Provides(CiSelect.EnvFor(w), plan, E2e, items)
    ensures E2e in plan.checks && plan.scope.Some?
    ensures w.guests[id].runtime != "workerd" ==> Asks(items, Build, q)
    ensures w.guests[id].tier != "platform" ==> StagesAll(items) || Asks(items, StagePlugins, id)
  {
    GuestIsInScope(w, paths, plan, id, q);
    ScopedIsStaged(CiSelect.EnvFor(w), plan, id, q, items);
  }

  lemma ScopedIsStaged(env: Env, plan: Plan, id: string, q: Pkg, items: seq<Prereq>)
    requires E2e in plan.checks && plan.scope.Some? && InScope(env, plan.scope.value, id) && env.guests[id].package == Some(q)
    requires Provides(env, plan, E2e, items)
    ensures env.guests[id].runtime != "workerd" ==> Asks(items, Build, q)
    ensures env.guests[id].tier != "platform" ==> StagesAll(items) || Asks(items, StagePlugins, id)
  {
    NeedsExactly(env, plan, E2e, items, q);
    NeedsExactly(env, plan, E2e, items, id);
    if env.guests[id].runtime != "workerd" {
      assert NativeInScope(env, plan.scope.value, q);
    }
  }

  lemma GuestIsInScope(w: CiSelect.Repo, paths: seq<Path>, plan: Plan, id: string, q: Pkg)
    requires CiSelect.RepoOk(w) && paths != [] && Plans(CiSelect.EnvFor(w), paths, plan)
    requires id in w.guests && w.guests[id].package == Some(q) && CiSelect.Compiled(w, paths, q)
    ensures E2e in plan.checks && plan.scope.Some? && InScope(CiSelect.EnvFor(w), plan.scope.value, id)
  {
    CiSelect.PlanExactly(w, paths, plan);
    var ch := CiSelect.ChangeOf(w, paths);
    assert ch.guest(id) by { assert CiSelect.GuestWanted(w, paths, id); }
    if !plan.full {
      assert CiSelect.ScopeIs(ch, plan.scope);
      assert CiSelect.Wanted(w.rel, ch, E2e);
    }
  }

  // ---- patterns ----

  lemma AnyGlobExactly(glob: Glob, path: Path, patterns: seq<string>)
    ensures AnyGlob(glob, path, patterns) <==> exists pattern :: pattern in patterns && glob(path, pattern)
  {
    if pattern :| pattern in patterns && glob(path, pattern) {
      var i :| 0 <= i < |patterns| && patterns[i] == pattern;
    }
  }

  lemma AnyPrefixExactly(path: Path, prefixes: seq<string>)
    ensures AnyPrefix(path, prefixes) <==> exists prefix, rest :: prefix in prefixes && path == prefix + rest
  {
    if i :| 0 <= i < |prefixes| && prefixes[i] <= path {
      assert path == prefixes[i] + path[|prefixes[i]|..];
    }
    if prefix, rest :| prefix in prefixes && path == prefix + rest {
      var i :| 0 <= i < |prefixes| && prefixes[i] == prefix;
    }
  }

  /** The directory of a guest is the first two components of a path in it. */
  lemma GuestDirOf(top: string, guest: string, rest: string)
    requires '/' !in top && '/' !in guest
    ensures GuestDir(top + "/" + guest + "/" + rest) == top + "/" + guest
  {
    var path, sep := top + "/" + guest + "/" + rest, (c: char) => c == '/';
    var below := guest + "/" + rest;
    assert path == top + ("/" + below);
    Keys.SplitHead(sep, top, "/" + below);
    Keys.SplitHead(sep, guest, "/" + rest);
    assert below == guest + ("/" + rest);
    SecondPiece(sep, top, below);
  }

  lemma {:induction false} SecondPiece(sep: char -> bool, first: string, below: string)
    requires sep('/') && forall i :: 0 <= i < |first| ==> !sep(first[i])
    ensures Keys.Split(first + ("/" + below), sep)[1..] == Keys.Split(below, sep)
  {
    var all := first + ("/" + below);
    if first == "" {
      assert all == "/" + below && all[1..] == below;
    } else {
      assert all[1..] == first[1..] + ("/" + below);
      SecondPiece(sep, first[1..], below);
    }
  }
}
