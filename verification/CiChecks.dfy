/** From affected packages to checks, scopes and jobs, and why planning is monotone. */
module CiChecks {
  import opened Basics
  import opened CiClosure
  import opened CiPlan

  datatype Scope = FullScope | Guests(ids: set<string>)
  datatype Mode = FullMode | Affected(packages: set<Pkg>)

  /** `scope` and `release` are the parameters of the e2e and release checks,
      `steps` those of the postgres check. */
  datatype Plan = Plan(
    full: bool, packages: map<Pkg, Flags>, checks: set<Check>,
    scope: Option<Scope>, release: Option<Mode>, steps: set<string>, jobs: map<string, bool>)

  // ---- what the plan's check parameters list ----

  function Tested(sel: map<Pkg, Flags>): set<Pkg> {
    set p | p in sel && sel[p].tests && p != E2E_PACKAGE
  }

  function Documented(sel: map<Pkg, Flags>): set<Pkg> {
    set p | p in sel && sel[p].docs
  }

  function Doctested(sel: map<Pkg, Flags>): set<Pkg> {
    set p | p in sel && sel[p].doctest
  }

  function Benched(index: Index, sel: map<Pkg, Flags>): set<Pkg> {
    set p | p in sel && sel[p].benches && p in index.info && index.info[p].benches
  }

  function Exampled(index: Index, sel: map<Pkg, Flags>): set<Pkg> {
    set p | p in sel && sel[p].examples && p in index.info && index.info[p].examples
  }

  function Steps(rel: Relations, sel: map<Pkg, Flags>): set<string> {
    set s | s in rel.postgresSteps && rel.postgresSteps[s] in sel && sel[rel.postgresSteps[s]].unit
  }

  /** Some path of one of these packages' own sources changed. */
  predicate SourceChanged(t: Touch, pkgs: set<Pkg>) {
    exists i :: 0 <= i < |t.seeds| && t.seeds[i].0 in pkgs && t.seeds[i].1.Changed?
  }

  /** The same, read off the recorded reasons as `_select_checks` does. */
  predicate ReasonChanged(whys: map<Pkg, seq<Reason>>, pkgs: set<Pkg>) {
    exists p :: p in pkgs && p in whys && exists i :: 0 <= i < |whys[p]| && whys[p][i].Changed?
  }

  function E2eScope(env: Env, t: Touch, c: set<Pkg>, changed: bool): Option<Scope> {
    if t.e2eDirect || changed || t.e2eFull then Some(FullScope)
    else
      var built := set id | id in env.guests && env.guests[id].package.Some? && env.guests[id].package.value in c;
      var smoke := if c * env.rel.runtimeSmokePackages != {} then env.rel.runtimeSmoke else {};
      if t.e2eIds + built + smoke == {} then None else Some(Guests(t.e2eIds + built + smoke))
  }

  function ReleaseMode(env: Env, t: Touch, c: set<Pkg>, changed: bool): Option<Mode> {
    if t.releaseFull || changed then Some(FullMode)
    else if env.rel.releaseShipped * c != {} then Some(Affected(env.rel.releaseShipped * c))
    else None
  }

  function PlatformPackages(rel: Relations, k: Check): set<Pkg> {
    if k in rel.platformJobs then rel.platformJobs[k] else {}
  }

  // ---- stage 1: checks ----

  /** `_select_checks`, one check at a time. */
  predicate Picked(env: Env, t: Touch, c: set<Pkg>, sel: map<Pkg, Flags>, scope: Option<Scope>, release: Option<Mode>, k: Check) {
    match k
    case Fmt => sel.Keys != {}
    case Clippy => sel.Keys != {}
    case ClippyPublish => sel.Keys * PUBLISH_CRATES != {}
    case AuthorSurface => SDK_PACKAGE in c
    case PluginSdkAbi => t.ts || t.py || t.abi || c * PUBLISH_CRATES != {}
    case PythonSdk => t.ts || t.py || t.abi || c * PUBLISH_CRATES != {}
    case Ui => t.ui || UI_HOST_PACKAGE in c
    case ApiDocs => Documented(sel) != {} || t.ts || t.ui || t.py
    case Doctest => Doctested(sel) != {}
    case StoreFree => c * STORE_FREE_PACKAGES != {}
    case RustTest => Tested(sel) != {} || Benched(env.index, sel) != {} || Exampled(env.index, sel) != {}
    case E2e => scope.Some?
    case Confinement => sel.Keys * PlatformPackages(env.rel, Confinement) != {}
    case Tray => sel.Keys * PlatformPackages(env.rel, Tray) != {}
    case NativeGateway => c * env.rel.gatewayPackages != {} || t.gateway
    case WindowsCluster => t.windows
    case Postgres => Steps(env.rel, sel) != {}
    case Release => release.Some?
    case Unknown(_) => false
  }

  function Checks(env: Env, t: Touch, c: set<Pkg>, sel: map<Pkg, Flags>, scope: Option<Scope>, release: Option<Mode>): set<Check> {
    (set k | k in ALL_CHECKS && Picked(env, t, c, sel, scope, release, k)) + (set k | k in t.fixtureChecks)
  }

  /** `_derive_jobs`. */
  function Jobs(checks: set<Check>): map<string, bool> {
    map job | job in JOB_CHECKS :: JOB_CHECKS[job] * checks != {}
  }

  function SelectivePlan(env: Env, t: Touch, c: set<Pkg>, sel: map<Pkg, Flags>, e2eChanged: bool, releaseChanged: bool): Plan {
    var scope := E2eScope(env, t, c, e2eChanged);
    var release := ReleaseMode(env, t, c, releaseChanged);
    var checks := Checks(env, t, c, sel, scope, release);
    Plan(false, sel, checks, scope, release, Steps(env.rel, sel), Jobs(checks))
  }

  /** `_finalize_full`; note that it leaves the `unit` flag unset. */
  function FullPlan(env: Env): Plan {
    Plan(true, map p | p in env.index.info :: CompiledFlags(env.index.info[p]).(unit := false),
         ALL_CHECKS, Some(FullScope), Some(FullMode), env.rel.postgresSteps.Keys, Jobs(ALL_CHECKS))
  }

  const EMPTY_PLAN := Plan(false, map[], {}, None, None, {}, map[])

  // ---- the planner ----

  /** Seeds package by package, as the dictionary of seed lists is read back. */
  function Grouped(seeds: seq<Seed>): (r: seq<Seed>)
    ensures forall s :: s in r <==> s in seeds
    decreases |seeds|
  {
    if seeds == [] then []
    else
      var mine := Of(seeds, seeds[0].0, true);
      var rest := Of(seeds, seeds[0].0, false);
      mine + Grouped(rest)
  }

  function Of(seeds: seq<Seed>, p: Pkg, keep: bool): (r: seq<Seed>)
    ensures forall s :: s in r <==> s in seeds && (s.0 == p) == keep
    ensures |r| <= |seeds| && (seeds != [] && (seeds[0].0 == p) != keep ==> |r| < |seeds|)
  {
    if seeds == [] then []
    else (if (seeds[0].0 == p) == keep then [seeds[0]] else []) + Of(seeds[1..], p, keep)
  }

  /** What `build_plan` returns for a list of changed paths. */
  ghost predicate Plans(env: Env, paths: seq<Path>, plan: Plan) {
    var t := SurveyOf(env, paths);
    if paths == [] then plan == EMPTY_PLAN
    else if t.full then plan == FullPlan(env)
    else exists c, sel ::
           && IsClosure(env.index.compile, Grouped(t.seeds), c) && Selects(env, t, c, sel)
           && plan == SelectivePlan(env, t, c, sel, SourceChanged(t, env.rel.e2eFullPackages),
                                    SourceChanged(t, env.rel.releaseFullPackages))
  }

  method BuildPlan(env: Env, paths: seq<Path>) returns (plan: Plan)
    requires EnvOk(env)
    ensures Plans(env, paths, plan)
  {
    if paths == [] {
      return EMPTY_PLAN;
    }
    var t := Survey(env, paths);
    if t.full {
      return FullPlan(env);
    }
    SurveyOk(env, paths);
    var seeds := Grouped(t.seeds);
    assert WithinWorkspace(env.index.compile, seeds, env.index.info.Keys) by {
      forall i | 0 <= i < |seeds| ensures seeds[i].0 in env.index.info { assert seeds[i] in seeds; }
    }
    var whys, compiled, order := Close(env.index.compile, seeds, env.index.info.Keys);
    var sel := SelectPackages(env, t, compiled);
    ReasonsTell(env, t, whys, compiled, env.rel.e2eFullPackages);
    ReasonsTell(env, t, whys, compiled, env.rel.releaseFullPackages);
    plan := SelectivePlan(env, t, compiled, sel, ReasonChanged(whys, env.rel.e2eFullPackages),
                          ReasonChanged(whys, env.rel.releaseFullPackages));
  }

  /** The recorded reasons tell a direct source change from a mere dependency. */
  lemma ReasonsTell(env: Env, t: Touch, whys: map<Pkg, seq<Reason>>, c: set<Pkg>, pkgs: set<Pkg>)
    requires c == whys.Keys && Closed(env.index.compile, Grouped(t.seeds), c)
    requires forall p, r :: p in c ==> (r in whys[p] <==> Justified(env.index.compile, Grouped(t.seeds), c, p, r))
    ensures ReasonChanged(whys, pkgs) <==> SourceChanged(t, pkgs)
  {
    if ReasonChanged(whys, pkgs) {
      var p :| p in pkgs && p in whys && exists i :: 0 <= i < |whys[p]| && whys[p][i].Changed?;
      var i :| 0 <= i < |whys[p]| && whys[p][i].Changed?;
      assert whys[p][i] in whys[p];
      assert (p, whys[p][i]) in t.seeds;
    }
    if SourceChanged(t, pkgs) {
      var i :| 0 <= i < |t.seeds| && t.seeds[i].0 in pkgs && t.seeds[i].1.Changed?;
      var (p, r) := t.seeds[i];
      assert (p, r) in Grouped(t.seeds) by { assert t.seeds[i] in t.seeds; }
      assert Justified(env.index.compile, Grouped(t.seeds), c, p, r);
      assert r in whys[p];
    }
  }

  // ---- monotonicity ----

  predicate ScopeWithin(a: Option<Scope>, b: Option<Scope>) {
    a.None? || b == Some(FullScope) || (b.Some? && a.value.Guests? && a.value.ids <= b.value.ids)
  }

  predicate ModeWithin(a: Option<Mode>, b: Option<Mode>) {
    a.None? || b == Some(FullMode) || (b.Some? && a.value.Affected? && a.value.packages <= b.value.packages)
  }

  /** `b` runs everything that `a` runs, at the same or a wider scope: packages to
      lint, test, document, doctest, bench and build examples of, checks, the
      e2e scope, the release mode, the postgres steps, and jobs. */
  ghost predicate Covers(index: Index, b: Plan, a: Plan) {
    && a.packages.Keys <= b.packages.Keys && Tested(a.packages) <= Tested(b.packages)
    && Documented(a.packages) <= Documented(b.packages) && Doctested(a.packages) <= Doctested(b.packages)
    && Benched(index, a.packages) <= Benched(index, b.packages)
    && Exampled(index, a.packages) <= Exampled(index, b.packages)
    && a.checks <= b.checks && ScopeWithin(a.scope, b.scope) && ModeWithin(a.release, b.release) && a.steps <= b.steps
    && (forall job :: job in a.jobs && a.jobs[job] ==> job in b.jobs && b.jobs[job])
  }

  lemma SeedsGrow(t: Touch, t': Touch)
    requires Within(t, t')
    ensures forall p :: HasSeed(Grouped(t.seeds), p) ==> HasSeed(Grouped(t'.seeds), p)
  {
    forall p | HasSeed(Grouped(t.seeds), p) ensures HasSeed(Grouped(t'.seeds), p) {
      var i :| 0 <= i < |Grouped(t.seeds)| && Grouped(t.seeds)[i].0 == p;
      assert Grouped(t.seeds)[i] in Grouped(t.seeds);
      assert Grouped(t.seeds)[i] in Grouped(t'.seeds);
    }
  }

  /** A reason to run something for the smaller change has an at least as strong
      counterpart for the larger one: a dev edge or a launched guest may turn
      into a compiled package, never into less. */
  lemma RaisesGrow(env: Env, t: Touch, t': Touch, c: set<Pkg>, c': set<Pkg>, p: Pkg, f: Flags)
    requires Within(t, t') && c <= c' && Raises(env, t, c, p, f)
    ensures exists f' :: Raises(env, t', c', p, f') && Leq(f, f')
  {
    if exists k :: (p, k) in t.inputs && f == KindFlags(k) {
      var k :| (p, k) in t.inputs && f == KindFlags(k);
      assert (p, k) in t'.inputs;
      assert Raises(env, t', c', p, f);
    } else if p in c' {
      assert Raises(env, t', c', p, CompiledFlags(env.index.info[p]));
    } else {
      HitsGrow(env, c, c', p);
      assert Raises(env, t', c', p, f);
    }
  }

  lemma HitsGrow(env: Env, c: set<Pkg>, c': set<Pkg>, p: Pkg)
    requires c <= c' && p !in c'
    ensures DevHit(env, c, p) ==> DevHit(env, c', p)
    ensures LaunchHit(env, c, p) ==> LaunchHit(env, c', p)
  {
    if DevHit(env, c, p) {
      var n :| n in c && p in Consumers(env.index.dev, n);
      assert n in c';
    }
    if LaunchHit(env, c, p) {
      var g :| g in env.rel.testGuests[p].build && g in c;
      assert g in c';
    }
  }

  lemma LeqTransitive(a: Flags, b: Flags, c: Flags)
    requires Leq(a, b) && Leq(b, c)
    ensures Leq(a, c)
  {}

  /** The flags of every selected package only grow. */
  lemma SelectionGrows(env: Env, t: Touch, t': Touch, c: set<Pkg>, c': set<Pkg>, sel: map<Pkg, Flags>, sel': map<Pkg, Flags>, p: Pkg)
    requires Within(t, t') && c <= c' && Selects(env, t, c, sel) && Selects(env, t', c', sel') && p in sel
    ensures p in sel' && Leq(sel[p], sel'[p])
  {
    var some :| Raises(env, t, c, p, some);
    RaisesGrow(env, t, t', c, c', p, some);
    assert p in sel';
    assert Leq(sel'[p], sel'[p]) && AllBelow(env, t', c', p, sel'[p]);
    forall f | Raises(env, t, c, p, f) ensures Leq(f, sel'[p]) {
      RaisesGrow(env, t, t', c, c', p, f);
      var f' :| Raises(env, t', c', p, f') && Leq(f, f');
      LeqTransitive(f, f', sel'[p]);
    }
    assert AllBelow(env, t, c, p, sel'[p]);
  }

  /** Every package the plan lists grows. */
  ghost predicate Grown(sel: map<Pkg, Flags>, sel': map<Pkg, Flags>) {
    forall p :: p in sel ==> p in sel' && Leq(sel[p], sel'[p])
  }

  lemma ListsGrow(env: Env, sel: map<Pkg, Flags>, sel': map<Pkg, Flags>)
    requires Grown(sel, sel')
    ensures sel.Keys <= sel'.Keys && Tested(sel) <= Tested(sel')
    ensures Documented(sel) <= Documented(sel') && Doctested(sel) <= Doctested(sel')
    ensures Benched(env.index, sel) <= Benched(env.index, sel') && Exampled(env.index, sel) <= Exampled(env.index, sel')
    ensures Steps(env.rel, sel) <= Steps(env.rel, sel')
  {}

  lemma SourceChangeGrows(t: Touch, t': Touch, pkgs: set<Pkg>)
    requires Within(t, t')
    ensures SourceChanged(t, pkgs) ==> SourceChanged(t', pkgs)
  {
    if SourceChanged(t, pkgs) {
      var i :| 0 <= i < |t.seeds| && t.seeds[i].0 in pkgs && t.seeds[i].1.Changed?;
      assert t.seeds[i] in t'.seeds;
    }
  }

  lemma Meets(a: set<Pkg>, b: set<Pkg>, with: set<Pkg>)
    requires a <= b
    ensures a * with <= b * with && (a * with != {} ==> b * with != {})
  {
    if a * with != {} {
      var x :| x in a * with;
      assert x in b * with;
    }
  }

  lemma ScopesGrow(env: Env, t: Touch, t': Touch, c: set<Pkg>, c': set<Pkg>, changed: bool, changed': bool)
    requires Within(t, t') && c <= c' && (changed ==> changed')
    ensures ScopeWithin(E2eScope(env, t, c, changed), E2eScope(env, t', c', changed'))
  {
    Meets(c, c', env.rel.runtimeSmokePackages);
  }

  lemma ModesGrow(env: Env, t: Touch, t': Touch, c: set<Pkg>, c': set<Pkg>, changed: bool, changed': bool)
    requires Within(t, t') && c <= c' && (changed ==> changed')
    ensures ModeWithin(ReleaseMode(env, t, c, changed), ReleaseMode(env, t', c', changed'))
  {
    Meets(c, c', env.rel.releaseShipped);
  }

  lemma PickedGrows(env: Env, t: Touch, t': Touch, c: set<Pkg>, c': set<Pkg>, sel: map<Pkg, Flags>, sel': map<Pkg, Flags>,
                    scope: Option<Scope>, scope': Option<Scope>, release: Option<Mode>, release': Option<Mode>, k: Check)
    requires Within(t, t') && c <= c' && Grown(sel, sel') && ScopeWithin(scope, scope') && ModeWithin(release, release')
    requires Picked(env, t, c, sel, scope, release, k)
    ensures Picked(env, t', c', sel', scope', release', k)
  {
    ListsGrow(env, sel, sel');
    match k
    case ClippyPublish => Meets(sel.Keys, sel'.Keys, PUBLISH_CRATES);
    case PluginSdkAbi => Meets(c, c', PUBLISH_CRATES);
    case PythonSdk => Meets(c, c', PUBLISH_CRATES);
    case StoreFree => Meets(c, c', STORE_FREE_PACKAGES);
    case Confinement => Meets(sel.Keys, sel'.Keys, PlatformPackages(env.rel, Confinement));
    case Tray => Meets(sel.Keys, sel'.Keys, PlatformPackages(env.rel, Tray));
    case NativeGateway => Meets(c, c', env.rel.gatewayPackages);
    case _ =>
  }

  lemma JobsGrow(a: set<Check>, b: set<Check>)
    requires a <= b
    ensures forall job :: job in Jobs(a) && Jobs(a)[job] ==> job in Jobs(b) && Jobs(b)[job]
  {
    forall job | job in JOB_CHECKS && JOB_CHECKS[job] * a != {} ensures JOB_CHECKS[job] * b != {} {
      var k :| k in JOB_CHECKS[job] * a;
      assert k in JOB_CHECKS[job] * b;
    }
  }

  /** Two selective plans. */
  lemma SelectiveIsMonotone(env: Env, t: Touch, t': Touch, c: set<Pkg>, c': set<Pkg>, sel: map<Pkg, Flags>, sel': map<Pkg, Flags>,
                            e: bool, e': bool, r: bool, r': bool)
    requires Within(t, t') && c <= c' && Grown(sel, sel') && (e ==> e') && (r ==> r')
    ensures Covers(env.index, SelectivePlan(env, t', c', sel', e', r'), SelectivePlan(env, t, c, sel, e, r))
  {
    ListsGrow(env, sel, sel');
    ScopesGrow(env, t, t', c, c', e, e');
    ModesGrow(env, t, t', c, c', r, r');
    var scope, scope' := E2eScope(env, t, c, e), E2eScope(env, t', c', e');
    var release, release' := ReleaseMode(env, t, c, r), ReleaseMode(env, t', c', r');
    forall k | k in ALL_CHECKS && Picked(env, t, c, sel, scope, release, k)
      ensures Picked(env, t', c', sel', scope', release', k)
    {
      PickedGrows(env, t, t', c, c', sel, sel', scope, scope', release, release', k);
    }
    JobsGrow(Checks(env, t, c, sel, scope, release), Checks(env, t', c', sel', scope', release'));
  }

  lemma FullListsAll(env: Env, t: Touch, c: set<Pkg>, sel: map<Pkg, Flags>)
    requires Selects(env, t, c, sel)
    ensures var full := FullPlan(env).packages;
            && sel.Keys <= full.Keys && Tested(sel) <= Tested(full)
            && Documented(sel) <= Documented(full) && Doctested(sel) <= Doctested(full)
            && Benched(env.index, sel) <= Benched(env.index, full) && Exampled(env.index, sel) <= Exampled(env.index, full)
  {
    forall p | p in sel ensures p in env.index.info && (sel[p].doctest ==> env.index.info[p].doctest) {
      var f :| Raises(env, t, c, p, f);
      if sel[p].doctest {
        DoctestIsSupported(env, t, c, sel, p);
      }
    }
  }

  /** The full suite covers every selective plan of a validated workspace. */
  lemma FullCoversSelective(env: Env, t: Touch, c: set<Pkg>, sel: map<Pkg, Flags>, e: bool, r: bool)
    requires TouchOk(env.index, t) && Selects(env, t, c, sel)
    ensures Covers(env.index, FullPlan(env), SelectivePlan(env, t, c, sel, e, r))
  {
    FullListsAll(env, t, c, sel);
    var checks := SelectivePlan(env, t, c, sel, e, r).checks;
    assert checks <= ALL_CHECKS;
    JobsGrow(checks, ALL_CHECKS);
  }

  lemma DoctestIsSupported(env: Env, t: Touch, c: set<Pkg>, sel: map<Pkg, Flags>, p: Pkg)
    requires Selects(env, t, c, sel) && p in sel && sel[p].doctest
    ensures p in env.index.info && env.index.info[p].doctest
  {
    var some :| Raises(env, t, c, p, some);
    var top := Flags(true, true, true, true, true, env.index.info[p].doctest, true);
    forall f | Raises(env, t, c, p, f) ensures Leq(f, top) {
      RaisedDoctest(env, t, c, p, f);
    }
    assert AllBelow(env, t, c, p, top);
    assert Leq(sel[p], top);
  }

  lemma RaisedDoctest(env: Env, t: Touch, c: set<Pkg>, p: Pkg, f: Flags)
    requires Raises(env, t, c, p, f)
    ensures f.doctest ==> env.index.info[p].doctest
  {}

  /** If every path of one change set is in another, the plan for the larger one
      runs everything the plan for the smaller one runs. */
  lemma PlanningIsMonotone(env: Env, some: seq<Path>, more: seq<Path>, plan: Plan, plan': Plan)
    requires EnvOk(env) && (forall p :: p in some ==> p in more)
    requires Plans(env, some, plan) && Plans(env, more, plan')
    ensures Covers(env.index, plan', plan)
    ensures plan.full ==> plan'.full
  {
    var t, t' := SurveyOf(env, some), SurveyOf(env, more);
    SurveyIsMonotone(env, some, more);
    SurveyOk(env, some);
    if some != [] {
      assert some[0] in more;
      if !t.full {
        var c, sel :|
          && IsClosure(env.index.compile, Grouped(t.seeds), c) && Selects(env, t, c, sel)
          && plan == SelectivePlan(env, t, c, sel, SourceChanged(t, env.rel.e2eFullPackages),
                                   SourceChanged(t, env.rel.releaseFullPackages));
        if t'.full {
          FullCoversSelective(env, t, c, sel, SourceChanged(t, env.rel.e2eFullPackages), SourceChanged(t, env.rel.releaseFullPackages));
        } else {
          BothSelective(env, t, t', c, sel, plan, plan');
        }
      }
    }
  }

  lemma BothSelective(env: Env, t: Touch, t': Touch, c: set<Pkg>, sel: map<Pkg, Flags>, plan: Plan, plan': Plan)
    requires Within(t, t') && IsClosure(env.index.compile, Grouped(t.seeds), c) && Selects(env, t, c, sel)
    requires plan == SelectivePlan(env, t, c, sel, SourceChanged(t, env.rel.e2eFullPackages),
                                   SourceChanged(t, env.rel.releaseFullPackages))
    requires exists c', sel' ::
               && IsClosure(env.index.compile, Grouped(t'.seeds), c') && Selects(env, t', c', sel')
               && plan' == SelectivePlan(env, t', c', sel', SourceChanged(t', env.rel.e2eFullPackages),
                                         SourceChanged(t', env.rel.releaseFullPackages))
    ensures Covers(env.index, plan', plan)
  {
    var c', sel' :|
      && IsClosure(env.index.compile, Grouped(t'.seeds), c') && Selects(env, t', c', sel')
      && plan' == SelectivePlan(env, t', c', sel', SourceChanged(t', env.rel.e2eFullPackages),
                                SourceChanged(t', env.rel.releaseFullPackages));
    SeedsGrow(t, t');
    ClosureIsMonotone(env.index.compile, Grouped(t.seeds), Grouped(t'.seeds), c, c');
    forall p | p in sel ensures p in sel' && Leq(sel[p], sel'[p]) {
      SelectionGrows(env, t, t', c, c', sel, sel', p);
    }
    SourceChangeGrows(t, t', env.rel.e2eFullPackages);
    SourceChangeGrows(t, t', env.rel.releaseFullPackages);
    SelectiveIsMonotone(env, t, t', c, c', sel, sel',
                        SourceChanged(t, env.rel.e2eFullPackages), SourceChanged(t', env.rel.e2eFullPackages),
                        SourceChanged(t, env.rel.releaseFullPackages), SourceChanged(t', env.rel.releaseFullPackages));
  }
}
