/** Running planned checks with run-once prerequisite markers, and the final gate. */
module CiExec {
  import opened Basics
  import opened CiPlan
  import opened CiChecks
  import opened CiPrereqs

  /** A prerequisite command, or command `n` of a check itself. Every
      prerequisite is one command, and its marker is named by its contents. */
  datatype Command = Pre(item: Prereq) | Own(n: nat)

  /** One command that was started on behalf of a check, and how it ended. */
  datatype Entry = Entry(check: Check, command: Command, ok: bool)

  /** A resolved artifact: the selected checks, their prerequisites in declared
      order, and how many commands each check has of its own. */
  datatype Artifact = Artifact(prereqs: map<Check, seq<Prereq>>, commands: Check -> nat)

  predicate ArtifactOk(a: Artifact) {
    forall k :: k in a.prereqs ==> Ordered(a.prereqs[k])
  }

  /** `planned_commands`: prerequisites first, then the check. */
  function Planned(a: Artifact, check: Check): Result<seq<Command>, string> {
    if check.Unknown? then Err("unknown check")
    else if check !in a.prereqs then Err("not in this run's execution plan")
    else Ok(seq(|a.prereqs[check]|, i requires 0 <= i < |a.prereqs[check]| => Pre(a.prereqs[check][i]))
            + seq(a.commands(check), i requires 0 <= i < a.commands(check) => Own(i)))
  }

  // ---- what a log must look like ----

  predicate Succeeded(log: seq<Entry>, item: Prereq) {
    exists i :: 0 <= i < |log| && log[i].ok && log[i].command == Pre(item)
  }

  /** Entry `i` had everything it needs: a check's own command comes after all
      of the check's prerequisites succeeded, prerequisite `j` of a check after
      its prerequisites before `j` did. */
  ghost predicate Entitled(a: Artifact, log: seq<Entry>, e: Entry) {
    && e.check in a.prereqs
    && match e.command
       case Own(_) => forall j :: 0 <= j < |a.prereqs[e.check]| ==> Succeeded(log, a.prereqs[e.check][j])
       case Pre(item) =>
         exists n :: 0 <= n < |a.prereqs[e.check]| && a.prereqs[e.check][n] == item
           && forall j :: 0 <= j < n ==> Succeeded(log, a.prereqs[e.check][j])
  }

  /** Everything that ran was entitled to, and no prerequisite succeeded twice. */
  ghost predicate Disciplined(a: Artifact, log: seq<Entry>) {
    && (forall i :: 0 <= i < |log| ==> Entitled(a, log[..i], log[i]))
    && (forall i, j :: 0 <= i < j < |log| && log[i].ok && log[j].command == log[i].command && log[i].command.Pre? ==> !log[j].ok)
  }

  ghost predicate MarkersAre(log: seq<Entry>, markers: set<Prereq>) {
    forall item :: item in markers <==> Succeeded(log, item)
  }

  /** A log and the markers that go with it. */
  ghost predicate Sound(a: Artifact, log: seq<Entry>, markers: set<Prereq>) {
    Disciplined(a, log) && MarkersAre(log, markers)
  }

  lemma SucceededMonotone(log: seq<Entry>, e: Entry, item: Prereq)
    ensures Succeeded(log + [e], item) <==> Succeeded(log, item) || (e.ok && e.command == Pre(item))
  {
    if Succeeded(log, item) {
      var i :| 0 <= i < |log| && log[i].ok && log[i].command == Pre(item);
      assert (log + [e])[i] == log[i];
    }
    assert (log + [e])[|log|] == e;
  }

  lemma DisciplinedExtend(a: Artifact, log: seq<Entry>, e: Entry)
    requires Disciplined(a, log) && Entitled(a, log, e)
    requires e.command.Pre? ==> !Succeeded(log, e.command.item)
    ensures Disciplined(a, log + [e])
  {
    var more := log + [e];
    forall i | 0 <= i < |more| ensures Entitled(a, more[..i], more[i]) {
      assert more[..i] == log[..i];
      assert log[..|log|] == log;
    }
  }

  /** What the markers become when a command has run. */
  function Marked(markers: set<Prereq>, e: Entry): set<Prereq> {
    if e.ok && e.command.Pre? then markers + {e.command.item} else markers
  }

  lemma MarkersExtend(log: seq<Entry>, markers: set<Prereq>, e: Entry)
    requires MarkersAre(log, markers)
    ensures MarkersAre(log + [e], Marked(markers, e))
  {
    forall item ensures item in Marked(markers, e) <==> Succeeded(log + [e], item) {
      SucceededMonotone(log, e, item);
    }
  }

  /** Running an unmarked prerequisite whose predecessors are marked. */
  lemma PrereqRuns(a: Artifact, log: seq<Entry>, markers: set<Prereq>, check: Check, n: nat, ok: bool)
    requires Sound(a, log, markers) && check in a.prereqs && n < |a.prereqs[check]| && a.prereqs[check][n] !in markers
    requires forall j :: 0 <= j < n ==> a.prereqs[check][j] in markers
    ensures var e := Entry(check, Pre(a.prereqs[check][n]), ok); Sound(a, log + [e], Marked(markers, e))
  {
    var e := Entry(check, Pre(a.prereqs[check][n]), ok);
    assert Entitled(a, log, e);
    DisciplinedExtend(a, log, e);
    MarkersExtend(log, markers, e);
  }

  /** Running a command of a check whose prerequisites are all marked. */
  lemma OwnRuns(a: Artifact, log: seq<Entry>, markers: set<Prereq>, check: Check, n: nat, ok: bool)
    requires Sound(a, log, markers) && check in a.prereqs
    requires forall j :: 0 <= j < |a.prereqs[check]| ==> a.prereqs[check][j] in markers
    ensures Sound(a, log + [Entry(check, Own(n), ok)], markers)
  {
    var e := Entry(check, Own(n), ok);
    assert Entitled(a, log, e);
    DisciplinedExtend(a, log, e);
    MarkersExtend(log, markers, e);
  }

  // ---- run_check ----

  /** How a series of commands ended, and the log behind it. */
  datatype Ended = Ended(ok: bool, log: seq<Entry>)

  /** Commands run one after the other, up to the first that fails. */
  function Ran(check: Check, work: seq<Command>, outcome: nat -> bool, log: seq<Entry>): Ended
    decreases |work|
  {
    if work == [] then Ended(true, log)
    else
      var e := Entry(check, work[0], outcome(|log|));
      if e.ok then Ran(check, work[1..], outcome, log + [e]) else Ended(false, log + [e])
  }

  /** Commands number `from` up to `to` all end well. */
  predicate AllEndWell(outcome: nat -> bool, from: nat, to: nat) {
    forall i: nat :: from <= i < to ==> outcome(i)
  }

  lemma {:induction false} RanOk(check: Check, work: seq<Command>, outcome: nat -> bool, log: seq<Entry>)
    ensures Ran(check, work, outcome, log).ok <==> AllEndWell(outcome, |log|, |log| + |work|)
    decreases |work|
  {
    if work != [] && outcome(|log|) {
      RanOk(check, work[1..], outcome, log + [Entry(check, work[0], true)]);
    }
  }

  /** Entry by entry: the log grows by the first commands of the work, all of them
      when all end well, and otherwise up to and with the first that fails. */
  lemma {:induction false} RanExactly(check: Check, work: seq<Command>, outcome: nat -> bool, log: seq<Entry>)
    ensures var r := Ran(check, work, outcome, log);
            && log <= r.log && |r.log| <= |log| + |work|
            && (forall i :: |log| <= i < |r.log| ==> r.log[i] == Entry(check, work[i - |log|], outcome(i)))
            && (forall i :: |log| <= i < |r.log| - 1 ==> r.log[i].ok)
            && (if r.ok then |r.log| == |log| + |work| else |r.log| > |log| && !r.log[|r.log| - 1].ok)
    decreases |work|
  {
    if work != [] {
      var e := Entry(check, work[0], outcome(|log|));
      if e.ok {
        RanExactly(check, work[1..], outcome, log + [e]);
      }
    }
  }

  /** The prerequisites that have no marker yet. */
  function Todo(items: seq<Prereq>, markers: set<Prereq>): seq<Command> {
    if items == [] then []
    else (if items[0] in markers then [] else [Pre(items[0])]) + Todo(items[1..], markers)
  }

  function OwnFrom(n: nat, commands: nat): seq<Command>
    decreases commands - n
  {
    if n >= commands then [] else [Own(n)] + OwnFrom(n + 1, commands)
  }

  /** All that a check still has to run. */
  function Work(a: Artifact, check: Check, markers: set<Prereq>): seq<Command>
    requires check in a.prereqs
  {
    Todo(a.prereqs[check], markers) + OwnFrom(0, a.commands(check))
  }

  /** Every command of the plan in its order, but for the prerequisites that are marked. */
  lemma WorkExactly(a: Artifact, check: Check, markers: set<Prereq>, c: Command)
    requires check in a.prereqs
    ensures c in Work(a, check, markers) <==>
              match c
              case Pre(item) => item in a.prereqs[check] && item !in markers
              case Own(n) => n < a.commands(check)
  {
    TodoMembers(a.prereqs[check], markers, c);
    OwnMembers(0, a.commands(check), c);
  }

  lemma {:induction false} TodoMembers(items: seq<Prereq>, markers: set<Prereq>, c: Command)
    ensures c in Todo(items, markers) <==> c.Pre? && c.item in items && c.item !in markers
  {
    if items != [] {
      TodoMembers(items[1..], markers, c);
      assert items == [items[0]] + items[1..];
    }
  }

  lemma {:induction false} OwnMembers(n: nat, commands: nat, c: Command)
    ensures c in OwnFrom(n, commands) <==> c.Own? && n <= c.n < commands
    decreases commands - n
  {
    if n < commands {
      OwnMembers(n + 1, commands, c);
    }
  }

  lemma TodoNext(items: seq<Prereq>, markers: set<Prereq>, i: nat)
    requires i < |items|
    ensures Todo(items[i..], markers) == (if items[i] in markers then [] else [Pre(items[i])]) + Todo(items[i + 1..], markers)
  {
    assert items[i..][1..] == items[i + 1..];
  }

  /** One turn of the loop over the prerequisites. */
  lemma RanTodo(check: Check, items: seq<Prereq>, markers: set<Prereq>, i: nat, outcome: nat -> bool, log: seq<Entry>)
    requires i < |items|
    ensures var e := Entry(check, Pre(items[i]), outcome(|log|));
            Ran(check, Todo(items[i..], markers), outcome, log) ==
              if items[i] in markers then Ran(check, Todo(items[i + 1..], markers), outcome, log)
              else if e.ok then Ran(check, Todo(items[i + 1..], markers), outcome, log + [e])
              else Ended(false, log + [e])
  {
    TodoNext(items, markers, i);
    var rest := Todo(items[i + 1..], markers);
    if items[i] in markers {
      assert [] + rest == rest;
    } else {
      assert ([Pre(items[i])] + rest)[1..] == rest;
    }
  }

  lemma RanOwn(check: Check, n: nat, commands: nat, outcome: nat -> bool, log: seq<Entry>)
    requires n < commands
    ensures var e := Entry(check, Own(n), outcome(|log|));
            Ran(check, OwnFrom(n, commands), outcome, log) ==
              if e.ok then Ran(check, OwnFrom(n + 1, commands), outcome, log + [e]) else Ended(false, log + [e])
  {
    assert ([Own(n)] + OwnFrom(n + 1, commands))[1..] == OwnFrom(n + 1, commands);
  }

  /** Markers beyond the given ones belong to the first `i` items. */
  ghost predicate NewMarks(items: seq<Prereq>, i: nat, markers: set<Prereq>, markers': set<Prereq>)
    requires i <= |items|
  {
    forall item :: item in markers' ==> item in markers || item in items[..i]
  }

  lemma NewMarksNext(items: seq<Prereq>, i: nat, markers: set<Prereq>, markers': set<Prereq>)
    requires Ordered(items) && i < |items| && NewMarks(items, i, markers, markers')
    ensures items[i] in markers' ==> items[i] in markers
    ensures NewMarks(items, i + 1, markers, markers') && NewMarks(items, i + 1, markers, markers' + {items[i]})
  {
    assert items[..i + 1] == items[..i] + [items[i]];
  }

  /** The first `i` prerequisites are marked, and the rest leads to what all of them lead to. */
  ghost predicate Progress(a: Artifact, check: Check, i: nat, outcome: nat -> bool,
                           markers: set<Prereq>, log: seq<Entry>, markers': set<Prereq>, log': seq<Entry>)
    requires check in a.prereqs && i <= |a.prereqs[check]|
  {
    var items := a.prereqs[check];
    && Sound(a, log', markers') && markers <= markers'
    && (forall j :: 0 <= j < i ==> items[j] in markers')
    && NewMarks(items, i, markers, markers')
    && Ran(check, Todo(items, markers), outcome, log) == Ran(check, Todo(items[i..], markers), outcome, log')
  }

  lemma ProgressSkips(a: Artifact, check: Check, i: nat, outcome: nat -> bool,
                      markers: set<Prereq>, log: seq<Entry>, markers': set<Prereq>, log': seq<Entry>)
    requires ArtifactOk(a) && check in a.prereqs && i < |a.prereqs[check]| && a.prereqs[check][i] in markers'
    requires Progress(a, check, i, outcome, markers, log, markers', log')
    ensures Progress(a, check, i + 1, outcome, markers, log, markers', log')
  {
    NewMarksNext(a.prereqs[check], i, markers, markers');
    RanTodo(check, a.prereqs[check], markers, i, outcome, log');
  }

  lemma ProgressRuns(a: Artifact, check: Check, i: nat, outcome: nat -> bool,
                     markers: set<Prereq>, log: seq<Entry>, markers': set<Prereq>, log': seq<Entry>)
    requires ArtifactOk(a) && check in a.prereqs && i < |a.prereqs[check]| && a.prereqs[check][i] !in markers'
    requires Progress(a, check, i, outcome, markers, log, markers', log')
    ensures var e := Entry(check, Pre(a.prereqs[check][i]), outcome(|log'|));
            && Sound(a, log' + [e], Marked(markers', e)) && markers <= Marked(markers', e)
            && (e.ok ==> Progress(a, check, i + 1, outcome, markers, log, Marked(markers', e), log' + [e]))
            && (!e.ok ==> Ran(check, Todo(a.prereqs[check], markers), outcome, log) == Ended(false, log' + [e]))
  {
    NewMarksNext(a.prereqs[check], i, markers, markers');
    RanTodo(check, a.prereqs[check], markers, i, outcome, log');
    PrereqRuns(a, log', markers', check, i, outcome(|log'|));
  }

  /** The prerequisites of a check; marked ones are not run again. */
  method RunPrereqs(a: Artifact, check: Check, outcome: nat -> bool, markers: set<Prereq>, log: seq<Entry>)
      returns (ok: bool, markers': set<Prereq>, log': seq<Entry>)
    requires ArtifactOk(a) && check in a.prereqs && Sound(a, log, markers)
    ensures Sound(a, log', markers') && markers <= markers'
    ensures ok ==> forall i :: 0 <= i < |a.prereqs[check]| ==> a.prereqs[check][i] in markers'
    ensures Ended(ok, log') == Ran(check, Todo(a.prereqs[check], markers), outcome, log)
  {
    ok, markers', log' := true, markers, log;
    var items := a.prereqs[check];
    assert items[0..] == items && items[|items|..] == [];
    for i := 0 to |items|
      invariant Progress(a, check, i, outcome, markers, log, markers', log')
    {
      if items[i] !in markers' {
        ProgressRuns(a, check, i, outcome, markers, log, markers', log');
        var e := Entry(check, Pre(items[i]), outcome(|log'|));
        log', markers' := log' + [e], Marked(markers', e);
        if !e.ok {
          return false, markers', log';
        }
      } else {
        ProgressSkips(a, check, i, outcome, markers, log, markers', log');
      }
    }
  }

  /** The commands of a check itself. */
  method RunOwn(a: Artifact, check: Check, outcome: nat -> bool, markers: set<Prereq>, log: seq<Entry>)
      returns (ok: bool, log': seq<Entry>)
    requires check in a.prereqs && Sound(a, log, markers)
    requires forall j :: 0 <= j < |a.prereqs[check]| ==> a.prereqs[check][j] in markers
    ensures Sound(a, log', markers)
    ensures Ended(ok, log') == Ran(check, OwnFrom(0, a.commands(check)), outcome, log)
  {
    ok, log' := true, log;
    for n := 0 to a.commands(check)
      invariant Sound(a, log', markers)
      invariant Ran(check, OwnFrom(0, a.commands(check)), outcome, log) == Ran(check, OwnFrom(n, a.commands(check)), outcome, log')
    {
      var e := Entry(check, Own(n), outcome(|log'|));
      RanOwn(check, n, a.commands(check), outcome, log');
      OwnRuns(a, log', markers, check, n, e.ok);
      log' := log' + [e];
      if !e.ok {
        return false, log';
      }
    }
  }

  lemma {:induction false} RanAppend(check: Check, first: seq<Command>, rest: seq<Command>, outcome: nat -> bool, log: seq<Entry>)
    ensures var mid := Ran(check, first, outcome, log);
            Ran(check, first + rest, outcome, log) == if mid.ok then Ran(check, rest, outcome, mid.log) else mid
    decreases |first|
  {
    if first == [] {
      assert first + rest == rest;
    } else {
      assert (first + rest)[1..] == first[1..] + rest;
      var e := Entry(check, first[0], outcome(|log|));
      if e.ok {
        RanAppend(check, first[1..], rest, outcome, log + [e]);
      }
    }
  }

  /** Runs one check: every command it still has to run, in order, up to the first
      that fails. `outcome` says how the next command to start will end. */
  method RunCheck(a: Artifact, check: Check, outcome: nat -> bool, markers: set<Prereq>, log: seq<Entry>)
      returns (ok: bool, markers': set<Prereq>, log': seq<Entry>)
    requires ArtifactOk(a) && Sound(a, log, markers)
    ensures Sound(a, log', markers') && markers <= markers'
    ensures Planned(a, check).Err? ==> !ok && log' == log && markers' == markers
    ensures Planned(a, check).Ok? ==>
              check in a.prereqs && Ended(ok, log') == Ran(check, Work(a, check, markers), outcome, log)
  {
    ok, markers', log' := false, markers, log;
    var planned := Planned(a, check);
    if planned.Err? {
      return;
    }
    RanAppend(check, Todo(a.prereqs[check], markers), OwnFrom(0, a.commands(check)), outcome, log);
    ok, markers', log' := RunPrereqs(a, check, outcome, markers', log');
    if ok {
      ok, log' := RunOwn(a, check, outcome, markers', log');
    }
  }

  /** A call on a planned check succeeds exactly when every command it still had to
      run ends well, and then it has run every one of them. */
  lemma CheckSucceedsExactlyWhen(a: Artifact, check: Check, outcome: nat -> bool, markers: set<Prereq>, log: seq<Entry>)
    requires check in a.prereqs
    ensures var work := Work(a, check, markers);
            var r := Ran(check, work, outcome, log);
            && (r.ok <==> AllEndWell(outcome, |log|, |log| + |work|))
            && (r.ok ==> |r.log| == |log| + |work| && forall i :: 0 <= i < |work| ==> r.log[|log| + i] == Entry(check, work[i], true))
            && (!r.ok ==> |r.log| > |log| && !r.log[|r.log| - 1].ok)
  {
    RanExactly(check, Work(a, check, markers), outcome, log);
    RanOk(check, Work(a, check, markers), outcome, log);
  }

  /** Any sequence of calls on one artifact, failures included. */
  method RunChecks(a: Artifact, checks: seq<Check>, outcome: nat -> bool) returns (markers: set<Prereq>, log: seq<Entry>)
    requires ArtifactOk(a)
    ensures Sound(a, log, markers)
  {
    markers, log := {}, [];
    for i := 0 to |checks|
      invariant Sound(a, log, markers)
    {
      var ok;
      ok, markers, log := RunCheck(a, checks[i], outcome, markers, log);
    }
  }

  /** In a disciplined log a check's prerequisites succeed in declared kind order:
      an item that ran for the check comes after the success of every item of an
      earlier kind. */
  lemma KindsInOrder(a: Artifact, log: seq<Entry>, i: nat, item: Prereq)
    requires ArtifactOk(a) && Disciplined(a, log) && i < |log| && log[i].command.Pre?
    requires item in a.prereqs[log[i].check] && Rank(item.kind) < Rank(log[i].command.item.kind)
    ensures Succeeded(log[..i], item)
  {
    assert Entitled(a, log[..i], log[i]);
    var items := a.prereqs[log[i].check];
    var n :| 0 <= n < |items| && items[n] == log[i].command.item && forall j :: 0 <= j < n ==> Succeeded(log[..i], items[j]);
    var m :| 0 <= m < |items| && items[m] == item;
    assert m < n;
  }

  // ---- the gate ----

  datatype Problem = PlanFailed | NotReported(job: string) | ShouldHaveRun(job: string) | ShouldHaveSkipped(job: string) | UnknownJob(job: string)

  /** A job's reported result; `None` when the job, or its result, is missing. */
  function ResultOf(needs: map<string, Option<string>>, job: string): Option<string> {
    if job in needs then needs[job] else None
  }

  function JobProblem(needs: map<string, Option<string>>, job: string, want: bool): seq<Problem> {
    match ResultOf(needs, job)
    case None => [NotReported(job)]
    case Some(result) =>
      if want && result != "success" then [ShouldHaveRun(job)]
      else if !want && result != "skipped" then [ShouldHaveSkipped(job)]
      else []
  }

  /** Every job ended as the plan expects. */
  predicate AsExpected(jobs: map<string, bool>, needs: map<string, Option<string>>) {
    forall job :: job in jobs ==> Reported(needs, job, if jobs[job] then "success" else "skipped")
  }

  predicate Reported(needs: map<string, Option<string>>, job: string, result: string) {
    job in needs && needs[job] == Some(result)
  }

  /** `gate`: the list of problems is empty exactly when the plan job succeeded,
      every planned job ended as expected and no other job was gated. */
  method Gate(jobs: map<string, bool>, needs: map<string, Option<string>>) returns (problems: seq<Problem>)
    ensures problems == [] <==>
            && Reported(needs, "plan", "success")
            && AsExpected(jobs, needs)
            && (forall job :: job in needs ==> job == "plan" || job in jobs)
  {
    problems := if ResultOf(needs, "plan") != Some("success") then [PlanFailed] else [];
    var todo := jobs.Keys;
    while todo != {}
      invariant todo <= jobs.Keys
      invariant problems == [] <==>
                && Reported(needs, "plan", "success")
                && (forall job :: job in jobs.Keys - todo ==> Reported(needs, job, if jobs[job] then "success" else "skipped"))
      decreases todo
    {
      var job :| job in todo;
      problems := problems + JobProblem(needs, job, jobs[job]);
      todo := todo - {job};
    }
    var gated := needs.Keys;
    while gated != {}
      invariant gated <= needs.Keys
      invariant problems == [] <==>
                && Reported(needs, "plan", "success") && AsExpected(jobs, needs)
                && (forall job :: job in needs.Keys - gated ==> job == "plan" || job in jobs)
      decreases gated
    {
      var job :| job in gated;
      if job != "plan" && job !in jobs {
        problems := problems + [UnknownJob(job)];
      }
      gated := gated - {job};
    }
  }

  /** `validate` accepts a plan's jobs exactly when some path changed. */
  lemma JobsPlannedExactlyWhen(env: Env, paths: seq<string>, plan: Plan)
    requires Plans(env, paths, plan)
    ensures plan.jobs.Keys == JOB_CHECKS.Keys <==> paths != []
  {
    assert "check" in JOB_CHECKS;
  }

  /** The jobs ended as expected exactly when the job of every selected check
      succeeded and every job without one was skipped. */
  lemma EmptyGateMeansPlanned(env: Env, paths: seq<string>, plan: Plan, needs: map<string, Option<string>>)
    requires Plans(env, paths, plan) && paths != []
    ensures AsExpected(plan.jobs, needs) <==>
            && (forall k, job :: k in plan.checks && job in JOB_CHECKS && k in JOB_CHECKS[job] ==> Reported(needs, job, "success"))
            && (forall job :: job in JOB_CHECKS && (forall k :: k in JOB_CHECKS[job] ==> k !in plan.checks) ==> Reported(needs, job, "skipped"))
  {
    assert plan.jobs == Jobs(plan.checks);
    JobsEnd(plan.checks, needs);
  }

  lemma JobsEnd(checks: set<Check>, needs: map<string, Option<string>>)
    ensures AsExpected(Jobs(checks), needs) <==>
            && (forall k, job :: k in checks && job in JOB_CHECKS && k in JOB_CHECKS[job] ==> Reported(needs, job, "success"))
            && (forall job :: job in JOB_CHECKS && (forall k :: k in JOB_CHECKS[job] ==> k !in checks) ==> Reported(needs, job, "skipped"))
  {
    forall job | job in JOB_CHECKS
      ensures Jobs(checks)[job] <==> exists k :: k in JOB_CHECKS[job] && k in checks
    {
      if k :| k in JOB_CHECKS[job] && k in checks { assert k in JOB_CHECKS[job] * checks; }
      if Jobs(checks)[job] { var k :| k in JOB_CHECKS[job] * checks; }
    }
  }

  lemma EveryCheckHasAJob(k: Check)
    requires k in ALL_CHECKS
    ensures exists job :: job in JOB_CHECKS && k in JOB_CHECKS[job]
  {
    if k in CHECK_JOB_CHECKS {
      assert k in JOB_CHECKS["check"];
    } else {
      assert Release in JOB_CHECKS["release"] && Confinement in JOB_CHECKS["confinement"];
      assert NativeGateway in JOB_CHECKS["native-gateway"] && Tray in JOB_CHECKS["tray"];
      assert Postgres in JOB_CHECKS["postgres"] && WindowsCluster in JOB_CHECKS["windows-cluster"];
    }
  }
}
