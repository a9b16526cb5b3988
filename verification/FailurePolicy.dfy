/**
 What happens to the other jobs when one fails: the wait loop cancels the stages the graph
 blocks, and a submission that breaks off withdraws every job it obtained.

 Whether a wait, a submission or a cancellation succeeds is up to the environment.
*/
module FailurePolicy {
  import opened Common
  import opened StageGraph

  // ------------------------------------------------------------------------ waiting

  /** The stages waited for: scheduled ones with a job ID, in graph order. */
  function Awaited(order: seq<Stage>, jobs: map<Name, string>): seq<Stage> {
    if order == [] then []
    else (if order[0].runner == Pbs && order[0].name in jobs then [order[0]] else []) + Awaited(order[1..], jobs)
  }

  function Blocked(order: seq<Stage>, failed: Name): set<Name> {
    Names(DependentsAfter(order, {failed}))
  }

  function Selected(pending: seq<Stage>, blocked: set<Name>, inside: bool): seq<Stage> {
    if pending == [] then []
    else (if (pending[0].name in blocked) == inside then [pending[0]] else []) + Selected(pending[1..], blocked, inside)
  }

  datatype Waiting = AllDone | Broken(failed: nat, cancelled: seq<Stage>, left: seq<Stage>)

  /** After a failure: cancel each remaining job the graph blocks, leave each other one. */
  method CancelBlocked(pending: seq<Stage>, blocked: set<Name>) returns (cancelled: seq<Stage>, left: seq<Stage>)
    ensures cancelled == Selected(pending, blocked, true)
    ensures left == Selected(pending, blocked, false)
  {
    cancelled, left := [], [];
    for k := 0 to |pending|
      invariant Selected(pending, blocked, true) == cancelled + Selected(pending[k..], blocked, true)
      invariant Selected(pending, blocked, false) == left + Selected(pending[k..], blocked, false)
    {
      assert pending[k..][1..] == pending[k + 1..];
      if pending[k].name in blocked {
        cancelled := cancelled + [pending[k]];
      } else {
        left := left + [pending[k]];
      }
    }
  }

  /** The failed stage's dependents among the remaining jobs are cancelled, the others left. */
  predicate BrokenAt(order: seq<Stage>, submitted: seq<Stage>, result: Waiting)
    requires result.Broken? && result.failed < |submitted|
  {
    var blocked := Blocked(order, submitted[result.failed].name);
    && result.cancelled == Selected(submitted[result.failed + 1..], blocked, true)
    && result.left == Selected(submitted[result.failed + 1..], blocked, false)
  }

  /**
   The wait loop: one stage after the other; the first failure cancels those of the remaining
   jobs that the graph blocks, leaves the others and ends the loop.
   */
  method WaitInOrder(order: seq<Stage>, jobs: map<Name, string>) returns (result: Waiting, waits: seq<Stage>)
    ensures result.AllDone? ==> waits == Awaited(order, jobs)
    ensures result.Broken? ==>
              result.failed < |Awaited(order, jobs)| && waits == Awaited(order, jobs)[..result.failed + 1]
    ensures result.Broken? ==> BrokenAt(order, Awaited(order, jobs), result)
  {
    var submitted := Awaited(order, jobs);
    waits := [];
    for index := 0 to |submitted|
      invariant waits == submitted[..index]
    {
      waits := waits + [submitted[index]];
      assert waits == submitted[..index + 1];
      if * {
        var dependents := DependentsOf(order, submitted[index].name);
        var cancelled, left := CancelBlocked(submitted[index + 1..], Names(dependents));
        return Broken(index, cancelled, left), waits;
      }
    }
    return AllDone, waits;
  }

  lemma {:induction false} SelectedStages(pending: seq<Stage>, blocked: set<Name>, inside: bool, s: Stage)
    ensures s in Selected(pending, blocked, inside) <==> s in pending && (s.name in blocked) == inside
    decreases |pending|
  {
    if pending != [] { SelectedStages(pending[1..], blocked, inside, s); }
  }

  lemma {:induction false} AwaitedInOrder(order: seq<Stage>, jobs: map<Name, string>, i: nat, k: nat)
    returns (a: nat, b: nat)
    requires i < k < |Awaited(order, jobs)|
    ensures a < b < |order| && order[a] == Awaited(order, jobs)[i] && order[b] == Awaited(order, jobs)[k]
    decreases |order|
  {
    var rest := order[1..];
    var here := order[0].runner == Pbs && order[0].name in jobs;
    if !here {
      a, b := AwaitedInOrder(rest, jobs, i, k);
      a, b := a + 1, b + 1;
    } else if i > 0 {
      a, b := AwaitedInOrder(rest, jobs, i - 1, k - 1);
      a, b := a + 1, b + 1;
    } else {
      assert Awaited(order, jobs)[k] == Awaited(rest, jobs)[k - 1];
      a := 0;
      b := AwaitedIsListed(rest, jobs, k - 1);
      b := b + 1;
    }
  }

  lemma {:induction false} AwaitedIsListed(order: seq<Stage>, jobs: map<Name, string>, k: nat) returns (b: nat)
    requires k < |Awaited(order, jobs)|
    ensures b < |order| && order[b] == Awaited(order, jobs)[k]
    decreases |order|
  {
    if order[0].runner == Pbs && order[0].name in jobs {
      if k == 0 { b := 0; } else { b := AwaitedIsListed(order[1..], jobs, k - 1); b := b + 1; }
    } else {
      b := AwaitedIsListed(order[1..], jobs, k);
      b := b + 1;
    }
  }

  lemma BlockedIsReaching(order: seq<Stage>, failed: Name, s: Stage)
    requires UniqueNames(order) && Topological(order, {}) && s in order
    ensures s.name in Blocked(order, failed) <==> Reaches(order, s.name, failed)
  {
    LegalOrderIsKept(order);
    if s.name in Blocked(order, failed) {
      var t :| t in DependentsAfter(order, {failed}) && t.name == s.name;
      DependentsInOrder(order, {failed}, t);
      DependentsAreTransitive(order, failed, t);
    }
    if Reaches(order, s.name, failed) {
      DependentsAreTransitive(order, failed, s);
      assert s.name in Blocked(order, failed);
    }
  }

  lemma ReachesIsTransitive(stages: seq<Stage>, a: Name, b: Name, c: Name)
    requires Reaches(stages, a, b) && Reaches(stages, b, c)
    ensures Reaches(stages, a, c)
  {
    var first :| WalkBetween(stages, first, a, b);
    var second :| WalkBetween(stages, second, b, c);
    var walk := first + second[1..];
    forall i | 0 <= i < |walk| - 1
      ensures DependsOn(stages, walk[i], walk[i + 1])
    {
      if i < |first| - 1 {
        assert DependsOn(stages, first[i], first[i + 1]);
      } else {
        assert DependsOn(stages, second[i - (|first| - 1)], second[i - (|first| - 1) + 1]);
      }
    }
    assert WalkBetween(stages, walk, a, c);
  }

  /** A stage awaited earlier cannot depend on one awaited later. */
  lemma EarlierDoNotReach(order: seq<Stage>, jobs: map<Name, string>, i: nat, k: nat)
    requires UniqueNames(order) && Topological(order, {}) && i < k < |Awaited(order, jobs)|
    ensures !Reaches(order, Awaited(order, jobs)[i].name, Awaited(order, jobs)[k].name)
  {
    var a, b := AwaitedInOrder(order, jobs, i, k);
    if Reaches(order, order[a].name, order[b].name) {
      var walk :| WalkBetween(order, walk, order[a].name, order[b].name);
      WalksDescend(order, walk, |walk| - 1);
      PositionOf(order, a);
      PositionOf(order, b);
    }
  }

  /**
   Exactly the jobs that depend on the failed stage are cancelled: among all submitted jobs,
   not just those after it, since none before it can depend on it.
   */
  lemma CancelsExactlyTheDependents(order: seq<Stage>, jobs: map<Name, string>, f: nat, s: Stage)
    requires UniqueNames(order) && Topological(order, {}) && f < |Awaited(order, jobs)|
    requires s in Awaited(order, jobs)
    ensures var submitted := Awaited(order, jobs);
            s in Selected(submitted[f + 1..], Blocked(order, submitted[f].name), true)
            <==> Reaches(order, s.name, submitted[f].name)
  {
    var submitted := Awaited(order, jobs);
    var failed := submitted[f].name;
    SelectedStages(submitted[f + 1..], Blocked(order, failed), true, s);
    var i :| 0 <= i < |submitted| && submitted[i] == s;
    var b := AwaitedIsListed(order, jobs, i);
    BlockedIsReaching(order, failed, s);
    if i < f {
      EarlierDoNotReach(order, jobs, i, f);
    } else if i == f {
      LegalIsAcyclic(order);
      assert Reaches(order, failed, failed) ==> Cyclic(order);
    } else {
      assert submitted[f + 1..][i - f - 1] == s;
    }
  }

  /** Nothing left running depends, even through others, on the failed or on a cancelled stage. */
  lemma NothingLeftIsDoomed(order: seq<Stage>, jobs: map<Name, string>, f: nat, s: Stage, c: Stage)
    requires UniqueNames(order) && Topological(order, {}) && f < |Awaited(order, jobs)|
    requires s in Selected(Awaited(order, jobs)[f + 1..], Blocked(order, Awaited(order, jobs)[f].name), false)
    requires c == Awaited(order, jobs)[f]
          || c in Selected(Awaited(order, jobs)[f + 1..], Blocked(order, Awaited(order, jobs)[f].name), true)
    ensures !Reaches(order, s.name, c.name)
  {
    var submitted := Awaited(order, jobs);
    var failed := submitted[f].name;
    SelectedStages(submitted[f + 1..], Blocked(order, failed), false, s);
    SelectedStages(submitted[f + 1..], Blocked(order, failed), true, s);
    CancelsExactlyTheDependents(order, jobs, f, s);
    if c != submitted[f] {
      SelectedStages(submitted[f + 1..], Blocked(order, failed), true, c);
      CancelsExactlyTheDependents(order, jobs, f, c);
      if Reaches(order, s.name, c.name) { ReachesIsTransitive(order, s.name, c.name, failed); }
    }
  }

  // --------------------------------------------------------------------- submitting

  /** A submitted job: its stage and its scheduler ID. */
  type JobId = (Name, string)

  /** What `qsub` was given for a stage. */
  datatype Qsub = Qsub(stage: Stage, dependencies: seq<string>)

  /** The stages whose job is told its dependencies; an index backup is not, nor are the others. */
  predicate PassesDependencies(stage: Stage, task: string) {
    match stage.kind
    case Mappings => true
    case Report => true
    case BlocksciWork => task != "backup" && stage.name != "blocksci"
    case _ => false
  }

  function JobsOf(submitted: seq<JobId>): map<Name, string> {
    if submitted == [] then map[]
    else
      var last := submitted[|submitted| - 1];
      JobsOf(submitted[..|submitted| - 1])[last.0 := last.1]
  }

  datatype Submission = Done | Interrupted | MissingDependency

  function ScheduledNames(stages: seq<Stage>): set<Name> {
    set s | s in stages && s.runner == Pbs :: s.name
  }

  /** The report depends on scheduled stages only. */
  ghost predicate ReportJoinsJobs(order: seq<Stage>) {
    forall s, d | s in order && s.kind == Report && s.runner == Pbs && d in s.dependencies :: d in ScheduledNames(order)
  }

  lemma ScheduledSnoc(order: seq<Stage>, i: nat)
    requires i < |order|
    ensures ScheduledNames(order[..i + 1])
         == ScheduledNames(order[..i]) + if order[i].runner == Pbs then {order[i].name} else {}
  {
    assert order[..i + 1] == order[..i] + [order[i]];
  }

  lemma {:induction false} AllIdsKnown(dependencies: seq<Name>, jobs: map<Name, string>)
    requires forall d | d in dependencies :: d in jobs
    ensures |DependencyIds(dependencies, jobs)| == |dependencies|
    decreases |dependencies|
  {
    if dependencies != [] { AllIdsKnown(dependencies[1..], jobs); }
  }

  lemma {:induction false} SameIds(dependencies: seq<Name>, jobs: map<Name, string>, more: map<Name, string>)
    requires forall d | d in dependencies :: (d in jobs <==> d in more) && (d in jobs ==> jobs[d] == more[d])
    ensures DependencyIds(dependencies, jobs) == DependencyIds(dependencies, more)
    decreases |dependencies|
  {
    if dependencies != [] { SameIds(dependencies[1..], jobs, more); }
  }

  /** What a stage depends on stands before it in the order. */
  lemma DependencyStandsBefore(order: seq<Stage>, i: nat, d: Name) returns (m: nat)
    requires Topological(order, {}) && i < |order| && d in order[i].dependencies
    ensures m < i && order[m].name == d
  {
    assert Ready(order[i], {} + Names(order[..i]));
    m := StageNamed(order[..i], d);
  }

  lemma ReportHasItsJobs(order: seq<Stage>, i: nat, jobs: map<Name, string>)
    requires UniqueNames(order) && Topological(order, {}) && ReportJoinsJobs(order)
    requires i < |order| && order[i].kind == Report && order[i].runner == Pbs
    requires jobs.Keys == ScheduledNames(order[..i])
    ensures |DependencyIds(order[i].dependencies, jobs)| == |order[i].dependencies|
  {
    forall d | d in order[i].dependencies
      ensures d in jobs
    {
      var m := DependencyStandsBefore(order, i, d);
      assert order[i] in order && d in ScheduledNames(order);
      var t :| t in order && t.runner == Pbs && t.name == d;
      assert order[m] == t;
      assert t in order[..i];
    }
    AllIdsKnown(order[i].dependencies, jobs);
  }

  /** The dependency IDs `qsub` is to be given for a stage. */
  function IdsFor(stage: Stage, task: string, jobs: map<Name, string>): seq<string> {
    if PassesDependencies(stage, task) then DependencyIds(stage.dependencies, jobs) else []
  }

  /** Each `qsub` was for one of the first `count` stages, and told the IDs of its dependencies that have jobs. */
  ghost predicate Told(order: seq<Stage>, count: nat, task: string, qsubs: seq<Qsub>, jobs: map<Name, string>) {
    && count <= |order|
    && forall q | q in qsubs :: q.stage in order[..count] && q.dependencies == IdsFor(q.stage, task, jobs)
  }

  /** A later job cannot be a dependency of an earlier stage. */
  lemma LaterJobTellsNothing(order: seq<Stage>, m: nat, i: nat, jobs: map<Name, string>, more: map<Name, string>)
    requires UniqueNames(order) && Topological(order, {}) && m <= i < |order|
    requires more == jobs || (order[i].name in more && more == jobs[order[i].name := more[order[i].name]])
    ensures DependencyIds(order[m].dependencies, jobs) == DependencyIds(order[m].dependencies, more)
  {
    forall d | d in order[m].dependencies
      ensures d != order[i].name
    {
      var k := DependencyStandsBefore(order, m, d);
    }
    SameIds(order[m].dependencies, jobs, more);
  }

  lemma ToldOneMore(order: seq<Stage>, i: nat, task: string, qsubs: seq<Qsub>, more: seq<Qsub>,
                    jobs: map<Name, string>, moreJobs: map<Name, string>)
    requires UniqueNames(order) && Topological(order, {}) && i < |order| && Told(order, i, task, qsubs, jobs)
    requires more == qsubs || more == qsubs + [Qsub(order[i], IdsFor(order[i], task, jobs))]
    requires moreJobs == jobs
          || (order[i].name in moreJobs && moreJobs == jobs[order[i].name := moreJobs[order[i].name]])
    ensures Told(order, i + 1, task, more, moreJobs)
  {
    forall q | q in more
      ensures q.stage in order[..i + 1] && q.dependencies == IdsFor(q.stage, task, moreJobs)
    {
      if q in qsubs {
        var m :| 0 <= m < i && order[..i][m] == q.stage;
        assert order[..i + 1][m] == q.stage;
        LaterJobTellsNothing(order, m, i, jobs, moreJobs);
      } else {
        assert order[..i + 1][i] == q.stage;
        LaterJobTellsNothing(order, i, i, jobs, moreJobs);
      }
    }
  }

  class S3StageRunner {
    const order: seq<Stage>
    const task: string
    const dryRun: bool
    var submittedJobs: seq<JobId>
    var jobs: map<Name, string>
    var qsubs: seq<Qsub>

    constructor (order: seq<Stage>, task: string, dryRun: bool)
      ensures this.order == order && this.task == task && this.dryRun == dryRun
      ensures submittedJobs == [] && jobs == map[] && qsubs == []
    {
      this.order, this.task, this.dryRun := order, task, dryRun;
      submittedJobs, jobs, qsubs := [], map[], [];
    }

    /** The bookkeeping agrees: the dictionary is the list's. */
    ghost predicate Valid()
      reads this
    {
      jobs == JobsOf(submittedJobs) && (dryRun ==> submittedJobs == [])
    }

    /** Submit one stage. `qsub` may fail without an ID, or the ID may be lost right after it was noted. */
    method Submit(stage: Stage, depends: bool) returns (ok: bool)
      requires Valid()
      modifies this
      ensures Valid()
      ensures dryRun || !ok || |submittedJobs| == |old(submittedJobs)| + 1
      ensures submittedJobs == old(submittedJobs)
           || (|submittedJobs| == |old(submittedJobs)| + 1
               && submittedJobs[..|old(submittedJobs)|] == old(submittedJobs)
               && submittedJobs[|old(submittedJobs)|].0 == stage.name)
      ensures jobs == old(jobs) || (stage.name in jobs && jobs == old(jobs)[stage.name := jobs[stage.name]])
      ensures ok && !dryRun ==> stage.name in jobs
      ensures qsubs == old(qsubs)
           || qsubs == old(qsubs) + [Qsub(stage, if depends then DependencyIds(stage.dependencies, old(jobs)) else [])]
      ensures ok ==> qsubs != old(qsubs)
    {
      var dependencies := if depends then DependencyIds(stage.dependencies, jobs) else [];
      if * { return false; }
      qsubs := qsubs + [Qsub(stage, dependencies)];
      if dryRun { return true; }
      if * { return false; }
      var id: string :| true;
      assert (submittedJobs + [(stage.name, id)])[..|submittedJobs|] == submittedJobs;
      submittedJobs := submittedJobs + [(stage.name, id)];
      jobs := jobs[stage.name := id];
      if * { return false; }
      return true;
    }

    /** One stage of the order: skipped unless scheduled; the report checks its dependencies first. */
    method SubmitScheduled(i: nat) returns (outcome: Submission)
      requires UniqueNames(order) && Topological(order, {}) && ReportJoinsJobs(order) && i < |order|
      requires Valid() && Told(order, i, task, qsubs, jobs)
      requires !dryRun ==> jobs.Keys == ScheduledNames(order[..i])
      modifies this
      ensures Valid() && Told(order, i + 1, task, qsubs, jobs)
      ensures outcome != MissingDependency
      ensures outcome == Submission.Done && !dryRun ==> jobs.Keys == ScheduledNames(order[..i + 1])
    {
      var stage := order[i];
      ScheduledSnoc(order, i);
      ghost var jobsBefore, told := jobs, qsubs;
      outcome := Submission.Done;
      if stage.runner == Pbs {
        if stage.kind == Report && !dryRun {
          ReportHasItsJobs(order, i, jobs);
          if |DependencyIds(stage.dependencies, jobs)| != |stage.dependencies| { return MissingDependency; }
        }
        var ok := Submit(stage, PassesDependencies(stage, task));
        if !ok { outcome := Interrupted; }
      }
      ToldOneMore(order, i, task, told, qsubs, jobsBefore, jobs);
    }

    /** The stages of the graph submitted to the scheduler, in graph order. */
    method SubmitAll() returns (outcome: Submission)
      requires UniqueNames(order) && Topological(order, {}) && ReportJoinsJobs(order)
      requires Valid() && submittedJobs == [] && qsubs == []
      modifies this
      ensures Valid()
      ensures outcome != MissingDependency
      ensures outcome == Submission.Done && !dryRun ==> jobs.Keys == ScheduledNames(order)
      ensures Told(order, |order|, task, qsubs, jobs)
    {
      for i := 0 to |order|
        invariant Valid() && Told(order, i, task, qsubs, jobs)
        invariant !dryRun ==> jobs.Keys == ScheduledNames(order[..i])
      {
        outcome := SubmitScheduled(i);
        if outcome != Submission.Done {
          ToldAll(order, i + 1, task, qsubs, jobs);
          return;
        }
      }
      assert order[..|order|] == order;
      outcome := Submission.Done;
    }
  }

  lemma ToldAll(order: seq<Stage>, count: nat, task: string, qsubs: seq<Qsub>, jobs: map<Name, string>)
    requires Told(order, count, task, qsubs, jobs)
    ensures Told(order, |order|, task, qsubs, jobs)
  {
    assert order[..|order|] == order;
  }

  // ----------------------------------------------------------------------- withdrawing

  /** The attempts that were not confirmed, in the order they were made. */
  function Unconfirmed(attempts: seq<(JobId, bool)>): seq<JobId> {
    if attempts == [] then []
    else
      var last := attempts[|attempts| - 1];
      Unconfirmed(attempts[..|attempts| - 1]) + if last.1 then [] else [last.0]
  }

  function Targets(attempts: seq<(JobId, bool)>): seq<JobId> {
    seq(|attempts|, i requires 0 <= i < |attempts| => attempts[i].0)
  }

  /** `rollback_s3_pbs_submissions`: try to cancel every job, newest first, and report the failures. */
  method Rollback(submitted: seq<JobId>) returns (failed: seq<JobId>, attempts: seq<(JobId, bool)>)
    ensures Targets(attempts) == Reversed(submitted)
    ensures failed == Unconfirmed(attempts)
  {
    failed, attempts := [], [];
    var k := |submitted|;
    assert submitted[..k] == submitted;
    while k > 0
      invariant 0 <= k <= |submitted|
      invariant Reversed(submitted) == Targets(attempts) + Reversed(submitted[..k])
      invariant failed == Unconfirmed(attempts)
    {
      k := k - 1;
      assert submitted[..k + 1][..k] == submitted[..k];
      var cancelled: bool := *;
      ghost var before := attempts;
      attempts := attempts + [(submitted[k], cancelled)];
      assert attempts[..|attempts| - 1] == before;
      assert Targets(attempts) == Targets(before) + [submitted[k]];
      if !cancelled { failed := failed + [submitted[k]]; }
    }
  }

  lemma {:induction false} ReversedAt(jobs: seq<JobId>, k: nat)
    requires k < |jobs|
    ensures |Reversed(jobs)| == |jobs| && Reversed(jobs)[k] == jobs[|jobs| - 1 - k]
    decreases |jobs|
  {
    if |jobs| > 1 { ReversedAt(jobs[..|jobs| - 1], if k > 0 then k - 1 else 0); }
  }

  /** Each job is tried exactly as often as it was submitted. */
  lemma {:induction false} ReversedOnce(jobs: seq<JobId>)
    ensures multiset(Reversed(jobs)) == multiset(jobs)
    decreases |jobs|
  {
    if jobs != [] {
      ReversedOnce(jobs[..|jobs| - 1]);
      assert jobs == jobs[..|jobs| - 1] + [jobs[|jobs| - 1]];
    }
  }

  lemma {:induction false} UnconfirmedJobs(attempts: seq<(JobId, bool)>, job: JobId)
    ensures job in Unconfirmed(attempts) <==> (job, false) in attempts
    decreases |attempts|
  {
    if attempts != [] {
      var before, last := attempts[..|attempts| - 1], attempts[|attempts| - 1];
      UnconfirmedJobs(before, job);
      assert attempts == before + [last];
    }
  }

  /**
   Submitting a graph: when it breaks off, every job ID obtained by then, also one whose
   bookkeeping failed, is passed to cancellation once, newest first; otherwise none is.
   */
  method SubmitGraph(order: seq<Stage>, task: string, dryRun: bool)
    returns (runner: S3StageRunner, outcome: Submission, failed: seq<JobId>, attempts: seq<(JobId, bool)>)
    requires UniqueNames(order) && Topological(order, {}) && ReportJoinsJobs(order)
    ensures runner.Valid() && runner.order == order && runner.task == task
    ensures outcome != MissingDependency
    ensures outcome == Submission.Done ==> attempts == [] && (!dryRun ==> runner.jobs.Keys == ScheduledNames(order))
    ensures outcome != Submission.Done ==> Targets(attempts) == Reversed(runner.submittedJobs)
    ensures failed == Unconfirmed(attempts)
    ensures Told(order, |order|, task, runner.qsubs, runner.jobs)
  {
    runner := new S3StageRunner(order, task, dryRun);
    outcome := runner.SubmitAll();
    failed, attempts := [], [];
    if outcome != Submission.Done {
      failed, attempts := Rollback(runner.submittedJobs);
    }
  }

  // ------------------------------------------------- which dependencies reach the scheduler

  /** Every dependency on a scheduled stage is passed on to the scheduler. */
  ghost predicate DependenciesReachScheduler(plan: seq<Stage>, task: string) {
    forall s, t | s in plan && t in plan && s.runner == Pbs && t.runner == Pbs && t.name in s.dependencies ::
      PassesDependencies(s, task)
  }

  lemma BackupIgnoresParse(mappingsPbs: bool, analysisPbs: bool, unifiedReport: bool)
    ensures !DependenciesReachScheduler(FullRunPlan(mappingsPbs, Reusable, analysisPbs, true, "backup", unifiedReport),
                                        "backup")
  {
    var plan := FullRunPlan(mappingsPbs, Reusable, analysisPbs, true, "backup", unifiedReport);
    var (parse, work) := BlocksciStages(true, Reusable, "backup");
    assert "backup" != "update" && "backup" != "parse";
    assert parse.value in plan && work.value in plan;
  }

  lemma StagesOfPlan(mappingsPbs: bool, workflow: Workflow, analysisPbs: bool, blocksciPbs: bool, task: string,
                     unifiedReport: bool, s: Stage)
    requires s in FullRunPlan(mappingsPbs, workflow, analysisPbs, blocksciPbs, task, unifiedReport)
    ensures var (parse, work) := BlocksciStages(blocksciPbs, workflow, task);
            || s == EmulationStage() || Some(s) == BaselineIf(analysisPbs) || Some(s) == parse || Some(s) == work
            || s.kind == Mappings || s.kind == Report
  {
  }

  /** Only the work stage after a parse stage depends on a job without being a report or mappings stage. */
  lemma OnlyWorkDependsOnParse(mappingsPbs: bool, workflow: Workflow, analysisPbs: bool, blocksciPbs: bool,
                               task: string,
                               unifiedReport: bool, s: Stage, t: Stage)
    requires var plan := FullRunPlan(mappingsPbs, workflow, analysisPbs, blocksciPbs, task, unifiedReport);
             s in plan && t in plan && t.runner == Pbs && t.name in s.dependencies
    requires s.kind != Mappings && s.kind != Report
    ensures var (parse, work) := BlocksciStages(blocksciPbs, workflow, task);
            Some(s) == work && parse.Some?
  {
    var plan := FullRunPlan(mappingsPbs, workflow, analysisPbs, blocksciPbs, task, unifiedReport);
    FullRunPlanIsLegal(mappingsPbs, workflow, analysisPbs, blocksciPbs, task, unifiedReport);
    StagesOfPlan(mappingsPbs, workflow, analysisPbs, blocksciPbs, task, unifiedReport, s);
    BlocksciNames(blocksciPbs, workflow, task);
    assert plan[0] == EmulationStage();
    var i :| 0 <= i < |plan| && plan[i] == t;
    assert i > 0;
  }

  lemma WorkPassesItsDependency(blocksciPbs: bool, workflow: Workflow, task: string)
    requires BlocksciStages(blocksciPbs, workflow, task).0.Some? && BlocksciStages(blocksciPbs, workflow, task).1.Some?
    ensures blocksciPbs && workflow == Reusable
    ensures PassesDependencies(BlocksciStages(blocksciPbs, workflow, task).1.value, task) <==> task != "backup"
  {
    var name := "blocksci-" + if task == "detect" then "analyze" else task;
    assert name[8] == '-';
  }

  /**
   The graph's dependencies between jobs reach the scheduler for every plan but one kind: an
   index backup with the reusable workflow is submitted without waiting for the parse job.
   */
  lemma DependenciesReachSchedulerUnlessBackup(mappingsPbs: bool, workflow: Workflow, analysisPbs: bool,
                                               blocksciPbs: bool,
                                               task: string, unifiedReport: bool)
    ensures DependenciesReachScheduler(FullRunPlan(mappingsPbs, workflow, analysisPbs, blocksciPbs, task,
                                                   unifiedReport), task)
        <==> !(blocksciPbs && workflow == Reusable && task == "backup")
  {
    var plan := FullRunPlan(mappingsPbs, workflow, analysisPbs, blocksciPbs, task, unifiedReport);
    if blocksciPbs && workflow == Reusable && task == "backup" {
      BackupIgnoresParse(mappingsPbs, analysisPbs, unifiedReport);
    } else {
      forall s, t | s in plan && t in plan && s.runner == Pbs && t.runner == Pbs && t.name in s.dependencies
        ensures PassesDependencies(s, task)
      {
        if s.kind != Mappings && s.kind != Report {
          OnlyWorkDependsOnParse(mappingsPbs, workflow, analysisPbs, blocksciPbs, task, unifiedReport, s, t);
          WorkPassesItsDependency(blocksciPbs, workflow, task);
        }
      }
    }
  }

  function Joined(mappingsPbs: bool, workflow: Workflow, analysisPbs: bool, blocksciPbs: bool,
                  task: string): seq<Stage> {
    Present(BaselineIf(analysisPbs)) + Present(BlocksciStages(blocksciPbs, workflow, task).1)
    + Present(MappingsIf(mappingsPbs, analysisPbs))
  }

  lemma JoinedAreScheduled(mappingsPbs: bool, workflow: Workflow, analysisPbs: bool, blocksciPbs: bool, task: string,
                           t: Stage)
    requires t in Joined(mappingsPbs, workflow, analysisPbs, blocksciPbs, task)
    ensures t in Analyzers(mappingsPbs, workflow, analysisPbs, blocksciPbs, task) && t.runner == Pbs
  {
  }

  lemma ReportIsTheJoin(mappingsPbs: bool, workflow: Workflow, analysisPbs: bool, blocksciPbs: bool, task: string,
                        unifiedReport: bool, s: Stage)
    requires s in FullRunPlan(mappingsPbs, workflow, analysisPbs, blocksciPbs, task, unifiedReport) && s.kind == Report
    ensures s.dependencies == NamesOf(Joined(mappingsPbs, workflow, analysisPbs, blocksciPbs, task))
  {
  }

  /** The report of a full run depends on jobs only, so its submission never lacks one. */
  lemma ReportOfPlanJoinsJobs(mappingsPbs: bool, workflow: Workflow, analysisPbs: bool, blocksciPbs: bool, task: string,
                              unifiedReport: bool)
    ensures ReportJoinsJobs(FullRunPlan(mappingsPbs, workflow, analysisPbs, blocksciPbs, task, unifiedReport))
  {
    var plan := FullRunPlan(mappingsPbs, workflow, analysisPbs, blocksciPbs, task, unifiedReport);
    var joined := Joined(mappingsPbs, workflow, analysisPbs, blocksciPbs, task);
    forall s, d | s in plan && s.kind == Report && s.runner == Pbs && d in s.dependencies
      ensures d in ScheduledNames(plan)
    {
      ReportIsTheJoin(mappingsPbs, workflow, analysisPbs, blocksciPbs, task, unifiedReport, s);
      NamesOfPresent(joined, d);
      var t :| t in joined && t.name == d;
      JoinedAreScheduled(mappingsPbs, workflow, analysisPbs, blocksciPbs, task, t);
      assert t in plan;
    }
  }
}
