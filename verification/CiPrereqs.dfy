/** Stage 2 of the planner: what each selected check needs on a clean runner. */
module CiPrereqs {
  import opened Basics
  import opened CiClosure
  import opened CiPlan
  import opened CiChecks
  import Keys

  datatype PrereqKind = Build | EnsureWorkerd | InstallPlatform | StagePlugins

  /** The position of a kind in the declared order. */
  function Rank(kind: PrereqKind): nat {
    match kind
    case Build => 0
    case EnsureWorkerd => 1
    case InstallPlatform => 2
    case StagePlugins => 3
  }

  /** `names` are packages to build or plugins to stage; `all` stages everything. */
  datatype Prereq = Prereq(kind: PrereqKind, names: seq<string>, all: bool)

  /** One item per kind, in declared order. */
  predicate Ordered(items: seq<Prereq>) {
    forall i, j :: 0 <= i < j < |items| ==> Rank(items[i].kind) < Rank(items[j].kind)
  }

  function Find(items: seq<Prereq>, kind: PrereqKind): Option<Prereq> {
    if items == [] then None
    else if items[0].kind == kind then Some(items[0])
    else Find(items[1..], kind)
  }

  lemma {:induction false} FindAt(items: seq<Prereq>, i: nat)
    requires Ordered(items) && i < |items|
    ensures Find(items, items[i].kind) == Some(items[i])
  {
    if i > 0 {
      assert Rank(items[0].kind) < Rank(items[i].kind);
      FindAt(items[1..], i - 1);
    }
  }

  lemma {:induction false} FindNone(items: seq<Prereq>, kind: PrereqKind)
    requires forall i :: 0 <= i < |items| ==> items[i].kind != kind
    ensures Find(items, kind).None?
  {
    if items != [] {
      FindNone(items[1..], kind);
    }
  }

  /** Two ordered lists with the same items agree at every kind. */
  lemma FindMatches(items: seq<Prereq>, kind: PrereqKind, r: Option<Prereq>)
    requires Ordered(items)
    requires match r
             case Some(item) => item.kind == kind && item in items
             case None => forall i :: 0 <= i < |items| ==> items[i].kind != kind
    ensures Find(items, kind) == r
  {
    match r
    case None => FindNone(items, kind);
    case Some(item) =>
      var i :| 0 <= i < |items| && items[i] == item;
      FindAt(items, i);
  }

  function MergeNames(old': seq<string>, more: seq<string>): seq<string>
    decreases |more|
  {
    if more == [] then old'
    else MergeNames(if more[0] in old' then old' else old' + [more[0]], more[1..])
  }

  lemma {:induction false} MergedNames(old': seq<string>, more: seq<string>, name: string)
    ensures name in MergeNames(old', more) <==> name in old' || name in more
    decreases |more|
  {
    if more != [] {
      MergedNames(if more[0] in old' then old' else old' + [more[0]], more[1..], name);
    }
  }

  /** What a kind's item becomes. Only package lists merge. */
  function Joined(was: Option<Prereq>, item: Prereq): Prereq {
    if was.None? then item
    else if item.kind == Build then was.value.(names := MergeNames(was.value.names, item.names))
    else was.value
  }

  method MergeLoop(old': seq<string>, more: seq<string>) returns (merged: seq<string>)
    ensures merged == MergeNames(old', more)
  {
    merged := old';
    for i := 0 to |more|
      invariant MergeNames(old', more) == MergeNames(merged, more[i..])
    {
      assert more[i..][0] == more[i] && more[i..][1..] == more[i + 1..];
      if more[i] !in merged {
        merged := merged + [more[i]];
      }
    }
  }

  /** `_prereq`: merge into the item of that kind, or append one and sort. */
  method AddPrereq(items: seq<Prereq>, item: Prereq) returns (r: seq<Prereq>)
    requires Ordered(items)
    ensures Ordered(r)
    ensures forall kind :: Find(r, kind) == if kind == item.kind then Some(Joined(Find(items, kind), item)) else Find(items, kind)
  {
    for i := 0 to |items|
      invariant forall j :: 0 <= j < i ==> items[j].kind != item.kind
    {
      if items[i].kind == item.kind {
        var joined := items[i];
        if item.kind == Build {
          var merged := MergeLoop(items[i].names, item.names);
          joined := joined.(names := merged);
        }
        r := items[i := joined];
        FindAt(items, i);
        ReplacedFinds(items, i, joined);
        return;
      }
    }
    FindNone(items, item.kind);
    r := Insert(items, item);
    InsertedFinds(items, item, r);
  }

  lemma ReplacedFinds(items: seq<Prereq>, i: nat, item: Prereq)
    requires Ordered(items) && i < |items| && items[i].kind == item.kind
    ensures Ordered(items[i := item])
    ensures forall kind :: Find(items[i := item], kind) == if kind == item.kind then Some(item) else Find(items, kind)
  {
    var r := items[i := item];
    forall kind ensures Find(r, kind) == if kind == item.kind then Some(item) else Find(items, kind) {
      if kind == item.kind {
        FindAt(r, i);
      } else if exists j :: 0 <= j < |items| && items[j].kind == kind {
        var j :| 0 <= j < |items| && items[j].kind == kind;
        FindAt(items, j);
        FindAt(r, j);
      } else {
        FindNone(items, kind);
        FindNone(r, kind);
      }
    }
  }

  /** The sort after the append: only the new last item moves. */
  method Insert(items: seq<Prereq>, item: Prereq) returns (r: seq<Prereq>)
    requires Ordered(items) && forall i :: 0 <= i < |items| ==> items[i].kind != item.kind
    ensures Ordered(r) && forall x :: x in r <==> x == item || x in items
  {
    var n := |items|;
    while n > 0 && Rank(item.kind) < Rank(items[n - 1].kind)
      invariant 0 <= n <= |items|
      invariant forall j :: n <= j < |items| ==> Rank(item.kind) < Rank(items[j].kind)
    {
      n := n - 1;
    }
    if n > 0 {
      KindsByRank(items[n - 1].kind, item.kind);
    }
    r := items[..n] + [item] + items[n..];
    InsertedOrdered(items, n, item);
    forall x ensures x in r <==> x == item || x in items { InsertedMember(items, n, item, x); }
  }

  lemma InsertedOrdered(items: seq<Prereq>, n: nat, item: Prereq)
    requires Ordered(items) && n <= |items|
    requires n > 0 ==> Rank(items[n - 1].kind) < Rank(item.kind)
    requires forall j :: n <= j < |items| ==> Rank(item.kind) < Rank(items[j].kind)
    ensures Ordered(items[..n] + [item] + items[n..])
  {
    var r := items[..n] + [item] + items[n..];
    forall i, j | 0 <= i < j < |r| ensures Rank(r[i].kind) < Rank(r[j].kind) {
      assert i < n ==> Rank(items[i].kind) <= Rank(items[n - 1].kind);
    }
  }

  lemma InsertedMember(items: seq<Prereq>, n: nat, item: Prereq, x: Prereq)
    requires n <= |items|
    ensures x in items[..n] + [item] + items[n..] <==> x == item || x in items
  {
    assert items == items[..n] + items[n..];
  }

  lemma KindsByRank(a: PrereqKind, b: PrereqKind)
    ensures a == b <==> Rank(a) == Rank(b)
  {}

  lemma InsertedFinds(items: seq<Prereq>, item: Prereq, r: seq<Prereq>)
    requires Ordered(items) && Ordered(r) && forall x :: x in r <==> x == item || x in items
    requires forall i :: 0 <= i < |items| ==> items[i].kind != item.kind
    ensures forall kind :: Find(r, kind) == if kind == item.kind then Some(item) else Find(items, kind)
  {
    forall kind ensures Find(r, kind) == if kind == item.kind then Some(item) else Find(items, kind) {
      if kind == item.kind {
        FindMatches(r, kind, Some(item));
      } else if exists x :: x in items && x.kind == kind {
        var x :| x in items && x.kind == kind;
        FindMatches(items, kind, Some(x));
        FindMatches(r, kind, Some(x));
      } else {
        FindNone(items, kind);
        forall i | 0 <= i < |r| ensures r[i].kind != kind { assert r[i] in r; }
        FindMatches(r, kind, None);
      }
    }
  }

  // ---- what each check needs ----

  /** An item as the runner sees it: which names, and whether it stages everything. */
  datatype Need = Need(names: set<string>, all: bool)

  function Elements(names: seq<string>): set<string> {
    set n | n in names
  }

  function NeedOf(item: Option<Prereq>): Option<Need> {
    if item.None? then None else Some(Need(Elements(item.value.names), item.value.all))
  }

  /** The packages whose tests the rust_test check runs. */
  function TestedPackages(env: Env, plan: Plan): set<Pkg> {
    if plan.full then env.index.info.Keys - {E2E_PACKAGE} + env.rel.featureTests else Tested(plan.packages)
  }

  function GuestBuilds(env: Env, tested: set<Pkg>): set<Pkg> {
    set p, g | p in tested && p in env.rel.testGuests && g in env.rel.testGuests[p].build :: g
  }

  predicate SpawnsWorkerd(env: Env, tested: set<Pkg>) {
    exists p :: p in tested && p in env.rel.testGuests && env.rel.testGuests[p].ensureWorkerd
  }

  function ScopeIds(env: Env, scope: Scope): set<string> {
    match scope
    case FullScope => env.guests.Keys
    case Guests(ids) => ids + (set id | id in env.guests && env.guests[id].tier == "platform")
  }

  function NativePackages(env: Env, ids: set<string>): set<Pkg> {
    set id | id in ids && id in env.guests && env.guests[id].runtime != "workerd" && env.guests[id].package.Some?
      :: env.guests[id].package.value
  }

  function StagedGuests(env: Env, ids: set<string>): set<string> {
    set id | id in ids && id in env.guests && env.guests[id].tier != "platform"
  }

  const RPC_BUILD: set<Pkg> := {"bookclerk-plugin-database-postgres", "bookclerk-workerd", "bookclerk-jail"}
  const SMOKE_BUILD: set<Pkg> := {"bookclerk-jail", "bookclerk-workerd"}
  const CLUSTER_BUILD: set<Pkg> := {"bookclerk-plugin-database-sqlite", "bookclerk-jail", "bookclerk-workerd"}

  function BuildAndWorkerd(build: set<Pkg>, kind: PrereqKind): Option<Need> {
    match kind
    case Build => Some(Need(build, false))
    case EnsureWorkerd => Some(Need({}, false))
    case _ => None
  }

  function RustTestNeeds(env: Env, tested: set<Pkg>, kind: PrereqKind): Option<Need> {
    match kind
    case Build => if GuestBuilds(env, tested) == {} then None else Some(Need(GuestBuilds(env, tested), false))
    case EnsureWorkerd => if SpawnsWorkerd(env, tested) then Some(Need({}, false)) else None
    case _ => None
  }

  function E2eNeeds(env: Env, scope: Scope, kind: PrereqKind): Need {
    var ids := ScopeIds(env, scope);
    match kind
    case Build => Need(SMOKE_BUILD + NativePackages(env, ids), false)
    case EnsureWorkerd => Need({}, false)
    case InstallPlatform => Need({}, false)
    case StagePlugins => if scope.FullScope? then Need({}, true) else Need(StagedGuests(env, ids), false)
  }

  function Needed(env: Env, plan: Plan, k: Check, kind: PrereqKind): Option<Need> {
    if k !in plan.checks then None
    else match k
      case RustTest => RustTestNeeds(env, TestedPackages(env, plan), kind)
      case E2e => if plan.scope.Some? then Some(E2eNeeds(env, plan.scope.value, kind)) else None
      case Postgres => if "rpc_like" in plan.steps then BuildAndWorkerd(RPC_BUILD, kind) else None
      case NativeGateway => BuildAndWorkerd(SMOKE_BUILD, kind)
      case WindowsCluster => BuildAndWorkerd(CLUSTER_BUILD, kind)
      case _ => None
  }

  method Listing(s: set<string>) returns (r: seq<string>)
    ensures forall x :: x in r <==> x in s
  {
    r := [];
    var todo := s;
    while todo != {}
      invariant todo <= s && forall x :: x in r <==> x in s - todo
      decreases todo
    {
      var x :| x in todo;
      r, todo := r + [x], todo - {x};
    }
  }

  lemma NamesOf(item: Prereq, names: set<string>)
    requires forall x :: x in item.names <==> x in names
    ensures NeedOf(Some(item)) == Some(Need(names, item.all))
  {
    assert Elements(item.names) == names;
  }

  lemma JoinedNeed(was: Option<Prereq>, names: seq<string>)
    requires was.Some? ==> was.value.kind == Build && !was.value.all
    ensures var before := if was.None? then {} else NeedOf(was).value.names;
            NeedOf(Some(Joined(was, Prereq(Build, names, false)))) == Some(Need(before + Elements(names), false))
  {
    var before := if was.None? then {} else NeedOf(was).value.names;
    var item := Joined(was, Prereq(Build, names, false));
    if was.Some? {
      forall n ensures n in item.names <==> n in was.value.names || n in names {
        MergedNames(was.value.names, names, n);
      }
    }
    NamesOf(item, before + Elements(names));
  }

  // ---- the expansion ----

  /** `items` are in declared order and hold exactly what the tested packages need. */
  ghost predicate RustTestProvided(env: Env, tested: set<Pkg>, items: seq<Prereq>) {
    Ordered(items) && forall kind :: NeedOf(Find(items, kind)) == RustTestNeeds(env, tested, kind)
  }

  /** Guests for the tested packages, one package after another. */
  method RustTestItems(env: Env, tested: set<Pkg>) returns (items: seq<Prereq>)
    ensures RustTestProvided(env, tested, items)
  {
    items := [];
    var todo := tested;
    while todo != {}
      invariant todo <= tested && RustTestProvided(env, tested - todo, items)
      decreases todo
    {
      var p :| p in todo;
      ghost var before := tested - todo;
      OneMoreTested(env, before, p);
      if p in env.rel.testGuests {
        items := GuestItems(env, items, before, p);
      }
      todo := todo - {p};
      assert tested - todo == before + {p};
    }
    assert tested - todo == tested;
  }

  lemma OneMoreTested(env: Env, tested: set<Pkg>, p: Pkg)
    ensures GuestBuilds(env, tested + {p}) ==
            GuestBuilds(env, tested) + if p in env.rel.testGuests then Elements(env.rel.testGuests[p].build) else {}
    ensures SpawnsWorkerd(env, tested + {p}) <==>
            SpawnsWorkerd(env, tested) || (p in env.rel.testGuests && env.rel.testGuests[p].ensureWorkerd)
    ensures p !in env.rel.testGuests ==> GuestBuilds(env, tested + {p}) == GuestBuilds(env, tested)
  {
    if SpawnsWorkerd(env, tested) {
      var q :| q in tested && q in env.rel.testGuests && env.rel.testGuests[q].ensureWorkerd;
      assert q in tested + {p};
    }
    assert p in tested + {p};
  }

  method GuestItems(env: Env, items: seq<Prereq>, ghost tested: set<Pkg>, p: Pkg) returns (r: seq<Prereq>)
    requires p in env.rel.testGuests && RustTestProvided(env, tested, items)
    ensures RustTestProvided(env, tested + {p}, r)
  {
    var spec := env.rel.testGuests[p];
    r := items;
    OneMoreTested(env, tested, p);
    if spec.build != [] {
      FoundKind(r, Build);
      BuildGrows(env, tested, p, Find(r, Build));
      r := AddPrereq(r, Prereq(Build, spec.build, false));
    } else {
      assert GuestBuilds(env, tested + {p}) == GuestBuilds(env, tested);
    }
    assert NeedOf(Find(r, Build)) == RustTestNeeds(env, tested + {p}, Build);
    assert NeedOf(Find(r, EnsureWorkerd)) == RustTestNeeds(env, tested, EnsureWorkerd);
    if spec.ensureWorkerd {
      NamesOf(Prereq(EnsureWorkerd, [], false), {});
      r := AddPrereq(r, Prereq(EnsureWorkerd, [], false));
    }
  }

  lemma BuildGrows(env: Env, tested: set<Pkg>, p: Pkg, was: Option<Prereq>)
    requires p in env.rel.testGuests && env.rel.testGuests[p].build != []
    requires NeedOf(was) == RustTestNeeds(env, tested, Build) && (was.Some? ==> was.value.kind == Build)
    ensures NeedOf(Some(Joined(was, Prereq(Build, env.rel.testGuests[p].build, false)))) == RustTestNeeds(env, tested + {p}, Build)
  {
    var build := env.rel.testGuests[p].build;
    JoinedNeed(was, build);
    OneMoreTested(env, tested, p);
    assert build[0] in Elements(build);
    assert GuestBuilds(env, tested) == if was.None? then {} else NeedOf(was).value.names;
  }

  lemma {:induction false} FoundKind(items: seq<Prereq>, kind: PrereqKind)
    ensures Find(items, kind).Some? ==> Find(items, kind).value.kind == kind
  {
    if items != [] {
      FoundKind(items[1..], kind);
    }
  }

  /** A build item, if any packages, then pinned workerd. */
  method BuildAndWorkerdItems(build: set<Pkg>) returns (items: seq<Prereq>)
    ensures Ordered(items) && forall kind :: NeedOf(Find(items, kind)) == BuildAndWorkerd(build, kind)
  {
    var names := Listing(build);
    NamesOf(Prereq(Build, names, false), build);
    NamesOf(Prereq(EnsureWorkerd, [], false), {});
    items := AddPrereq([], Prereq(Build, names, false));
    items := AddPrereq(items, Prereq(EnsureWorkerd, [], false));
  }

  method E2eItems(env: Env, scope: Scope) returns (items: seq<Prereq>)
    ensures Ordered(items) && forall kind :: NeedOf(Find(items, kind)) == Some(E2eNeeds(env, scope, kind))
  {
    var ids := ScopeIds(env, scope);
    items := BuildAndWorkerdItems(SMOKE_BUILD + NativePackages(env, ids));
    NamesOf(Prereq(InstallPlatform, [], false), {});
    items := AddPrereq(items, Prereq(InstallPlatform, [], false));
    if scope.FullScope? {
      NamesOf(Prereq(StagePlugins, [], true), {});
      items := AddPrereq(items, Prereq(StagePlugins, [], true));
    } else {
      var staged := Listing(StagedGuests(env, ids));
      NamesOf(Prereq(StagePlugins, staged, false), StagedGuests(env, ids));
      items := AddPrereq(items, Prereq(StagePlugins, staged, false));
    }
  }

  method CheckItems(env: Env, plan: Plan, k: Check) returns (items: seq<Prereq>)
    requires k in plan.checks && (k == E2e ==> plan.scope.Some?)
    ensures Ordered(items) && forall kind :: NeedOf(Find(items, kind)) == Needed(env, plan, k, kind)
  {
    items := [];
    match k
    case RustTest => items := RustTestItems(env, TestedPackages(env, plan));
    case E2e => items := E2eItems(env, plan.scope.value);
    case Postgres => if "rpc_like" in plan.steps { items := BuildAndWorkerdItems(RPC_BUILD); }
    case NativeGateway => items := BuildAndWorkerdItems(SMOKE_BUILD);
    case WindowsCluster => items := BuildAndWorkerdItems(CLUSTER_BUILD);
    case _ =>
  }

  /** `_expand_prereqs`. Reading the scope of an e2e check that was given none is
      the one way to fail. */
  method ExpandPrereqs(env: Env, plan: Plan) returns (r: Result<map<Check, seq<Prereq>>, string>)
    ensures r.Err? <==> E2e in plan.checks && plan.scope.None?
    ensures r.Ok? ==> r.value.Keys == plan.checks
    ensures r.Ok? ==> forall k :: k in plan.checks ==> Ordered(r.value[k])
    ensures r.Ok? ==> forall k, kind :: k in plan.checks ==> NeedOf(Find(r.value[k], kind)) == Needed(env, plan, k, kind)
  {
    if E2e in plan.checks && plan.scope.None? {
      return Err("scope");
    }
    var all: map<Check, seq<Prereq>> := map[];
    var todo := plan.checks;
    while todo != {}
      invariant todo <= plan.checks && all.Keys == plan.checks - todo
      invariant forall k :: k in all ==> Ordered(all[k])
      invariant forall k, kind :: k in all ==> NeedOf(Find(all[k], kind)) == Needed(env, plan, k, kind)
      decreases todo
    {
      var k :| k in todo;
      var items := CheckItems(env, plan, k);
      all, todo := all[k := items], todo - {k};
    }
    return Ok(all);
  }

  /** Nothing but a fixture asks for the staged end-to-end suite: no path of the
      suite itself, no inventory path, no direct source change in a package of the
      full scope, no guest, and no smoke test of the shared runtime. */
  predicate OnlyFixtureAsks(env: Env, t: Touch, c: set<Pkg>) {
    && E2e in t.fixtureChecks
    && !t.e2eDirect && !t.e2eFull && !SourceChanged(t, env.rel.e2eFullPackages) && t.e2eIds == {}
    && (forall id :: id in env.guests && env.guests[id].package.Some? ==> env.guests[id].package.value !in c)
    && (c * env.rel.runtimeSmokePackages == {} || env.rel.runtimeSmoke == {})
  }

  lemma ScopeNoneExactlyWhen(env: Env, t: Touch, c: set<Pkg>)
    ensures E2eScope(env, t, c, SourceChanged(t, env.rel.e2eFullPackages)).None? <==>
            && !t.e2eDirect && !t.e2eFull && !SourceChanged(t, env.rel.e2eFullPackages) && t.e2eIds == {}
            && (forall id :: id in env.guests && env.guests[id].package.Some? ==> env.guests[id].package.value !in c)
            && (c * env.rel.runtimeSmokePackages == {} || env.rel.runtimeSmoke == {})
  {
    var built := set id | id in env.guests && env.guests[id].package.Some? && env.guests[id].package.value in c;
    var smoke := if c * env.rel.runtimeSmokePackages != {} then env.rel.runtimeSmoke else {};
    assert t.e2eIds + built + smoke == {} <==> t.e2eIds == {} && built == {} && smoke == {} by {
      assert t.e2eIds <= t.e2eIds + built + smoke && built <= t.e2eIds + built + smoke && smoke <= t.e2eIds + built + smoke;
    }
    assert built == {} <==> forall id :: id in env.guests && env.guests[id].package.Some? ==> env.guests[id].package.value !in c by {
      forall id | id in env.guests && env.guests[id].package.Some? && env.guests[id].package.value in c ensures id in built {}
    }
  }

  lemma SelectiveScopeMissing(env: Env, t: Touch, c: set<Pkg>, sel: map<Pkg, Flags>, release: bool)
    ensures var plan := SelectivePlan(env, t, c, sel, SourceChanged(t, env.rel.e2eFullPackages), release);
            E2e in plan.checks && plan.scope.None? <==> OnlyFixtureAsks(env, t, c)
  {
    var scope := E2eScope(env, t, c, SourceChanged(t, env.rel.e2eFullPackages));
    ScopeNoneExactlyWhen(env, t, c);
    E2eChecked(env, t, c, sel, scope, ReleaseMode(env, t, c, release));
  }

  lemma E2eChecked(env: Env, t: Touch, c: set<Pkg>, sel: map<Pkg, Flags>, scope: Option<Scope>, release: Option<Mode>)
    ensures E2e in Checks(env, t, c, sel, scope, release) <==> scope.Some? || E2e in t.fixtureChecks
  {
    assert E2e in ALL_CHECKS;
    assert Picked(env, t, c, sel, scope, release, E2e) <==> scope.Some?;
  }

  /** Planning an end-to-end check without a scope, on which the expansion fails,
      happens exactly for a change set that escalates nothing and whose only
      reason for the check is a fixture. `c` is the compiled closure of the seeds. */
  lemma ScopeMissingExactlyWhen(env: Env, paths: seq<Path>, plan: Plan, c: set<Pkg>)
    requires Plans(env, paths, plan) && IsClosure(env.index.compile, Grouped(SurveyOf(env, paths).seeds), c)
    ensures E2e in plan.checks && plan.scope.None? <==>
            paths != [] && !SurveyOf(env, paths).full && OnlyFixtureAsks(env, SurveyOf(env, paths), c)
  {
    var t := SurveyOf(env, paths);
    if paths != [] && !t.full {
      var d, sel :|
        && IsClosure(env.index.compile, Grouped(t.seeds), d) && Selects(env, t, d, sel)
        && plan == SelectivePlan(env, t, d, sel, SourceChanged(t, env.rel.e2eFullPackages),
                                 SourceChanged(t, env.rel.releaseFullPackages));
      ClosureIsUnique(env.index.compile, Grouped(t.seeds), c, d);
      SelectiveScopeMissing(env, t, d, sel, SourceChanged(t, env.rel.releaseFullPackages));
    }
  }

  const FIXTURE_ONLY := Relations([], [], [Fixture(["assets/f"], [E2e])], map[], {}, map[], {}, [], {}, {}, map[], {}, [], [], {}, {}, [])
  const NO_PACKAGES := Index(map[], map[], map[], (_: Path) => None, (_: Path, _: Pkg) => None)

  /** Such a change set: validated relations whose one fixture names the check,
      and a change to that fixture. */
  lemma FixtureAloneHasNoScope(plan: Plan)
    requires Plans(EnvOf(NO_PACKAGES, FIXTURE_ONLY, map[], (path: Path, pattern: string) => path == pattern), ["assets/f"], plan)
    ensures Validated(FIXTURE_ONLY, NO_PACKAGES)
    ensures E2e in plan.checks && plan.scope.None?
  {
    var glob := (path: Path, pattern: string) => path == pattern;
    var env := EnvOf(NO_PACKAGES, FIXTURE_ONLY, map[], glob);
    FixtureTouch(glob);
    LoneFixture(env, "assets/f", plan);
  }

  lemma LoneFixture(env: Env, path: Path, plan: Plan)
    requires env.touch(path) == NOTHING.(fixtureChecks := [E2e]) && Plans(env, [path], plan)
    ensures E2e in plan.checks && plan.scope.None?
  {
    LoneSurvey(env, path);
    NoSeeds(env.index.compile);
    LoneFixtureAsks(env);
    ScopeMissingExactlyWhen(env, [path], plan, {});
  }

  lemma LoneSurvey(env: Env, path: Path)
    requires env.touch(path) == NOTHING.(fixtureChecks := [E2e])
    ensures SurveyOf(env, [path]) == NOTHING.(fixtureChecks := [E2e])
  {
    assert [path][..0] == [];
    assert SurveyOf(env, [path]) == Merge(NOTHING, env.touch(path));
  }

  lemma LoneFixtureAsks(env: Env)
    ensures OnlyFixtureAsks(env, NOTHING.(fixtureChecks := [E2e]), {})
  {}

  lemma NoSeeds(edges: Edges)
    ensures IsClosure(edges, Grouped([]), {})
  {}

  /** A path outside every declared surface that only a fixture matches. */
  lemma FixtureTouch(glob: Glob)
    requires forall path, pattern :: glob(path, pattern) <==> path == pattern
    ensures TouchOf(NO_PACKAGES, FIXTURE_ONLY, map[], glob, "assets/f") == NOTHING.(fixtureChecks := [E2e])
  {
    AssetPath("assets/f");
    FixtureMatches(glob, "assets/f");
    PlainTouch(NO_PACKAGES, FIXTURE_ONLY, glob, "assets/f", [E2e]);
  }

  /** No prefix and no listed path starts with an `a` but `assets`. */
  predicate Plain(path: Path) {
    && path !in FULL_SUITE_PATHS && !AnyPrefix(path, FULL_SUITE_PREFIXES) && path !in ABI_SYNC_PATHS
    && !EndsWith(path, "Cargo.toml")
    && !("ui/" <= path) && !("packages/plugin-sdk/" <= path) && !("packages/plugin-sdk-python/" <= path)
    && !("docs/" <= path) && !("examples/plugins-" <= path)
    && Keys.Split(path, c => c == '/')[0] in KNOWN_TOP_LEVEL
  }

  lemma AssetPath(path: Path)
    requires path == "assets/f"
    ensures Plain(path)
  {
    assert path[0] == 'a' && |path| == 8;
    Keys.SplitHead(c => c == '/', "assets", "/f");
    assert "assets" + "/f" == path;
    assert Keys.Split(path, c => c == '/')[0] == "assets";
  }

  lemma FixtureMatches(glob: Glob, path: Path)
    requires path == "assets/f" && forall path, pattern :: glob(path, pattern) <==> path == pattern
    ensures FixtureFor(glob, path, FIXTURE_ONLY.fixtures) == Some(Fixture(["assets/f"], [E2e]))
  {
    assert glob(path, FIXTURE_ONLY.fixtures[0].patterns[0]);
  }

  lemma PlainTouch(index: Index, rel: Relations, glob: Glob, path: Path, checks: seq<Check>)
    requires Plain(path) && index.owner(path).None?
    requires FixtureFor(glob, path, rel.fixtures).Some? && FixtureFor(glob, path, rel.fixtures).value.checks == checks
    requires rel.embeds == [] && rel.testInputs == [] && rel.gatewayPaths == [] && rel.windowsPaths == []
    requires rel.e2eFullPaths == [] && rel.releaseFullPaths == []
    ensures TouchOf(index, rel, map[], glob, path) == NOTHING.(fixtureChecks := checks)
  {}

  /** Prerequisites only grow with the plan: what a check of the smaller plan
      builds, installs or stages, the same check of the larger plan does too. */
  lemma PrereqsGrow(env: Env, plan: Plan, plan': Plan, k: Check, kind: PrereqKind)
    requires Covers(env.index, plan', plan) && (plan.full ==> plan'.full)
    requires plan'.full ==> plan' == FullPlan(env)
    requires Needed(env, plan, k, kind).Some?
    ensures Needed(env, plan', k, kind).Some?
    ensures Needed(env, plan, k, kind).value.names <= Needed(env, plan', k, kind).value.names || Needed(env, plan', k, kind).value.all
    ensures Needed(env, plan, k, kind).value.all ==> Needed(env, plan', k, kind).value.all
  {
    if k == RustTest {
      assert TestedPackages(env, plan) <= TestedPackages(env, plan');
      TestedGrow(env, TestedPackages(env, plan), TestedPackages(env, plan'));
    }
  }

  lemma TestedGrow(env: Env, some: set<Pkg>, more: set<Pkg>)
    requires some <= more
    ensures GuestBuilds(env, some) <= GuestBuilds(env, more)
    ensures SpawnsWorkerd(env, some) ==> SpawnsWorkerd(env, more)
  {
    if SpawnsWorkerd(env, some) {
      var p :| p in some && p in env.rel.testGuests && env.rel.testGuests[p].ensureWorkerd;
      assert p in more;
    }
  }
}
